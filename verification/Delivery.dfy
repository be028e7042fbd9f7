/** At-least-once pushes from many sidecars into one run's working state.
    A push may be lost, delayed, delivered late, delivered again, or delivered
    with its answer lost; the client then sends a larger batch. */
module Delivery {
  import opened Common
  import opened Progress
  import opened Sidecar
  import Lines

  /** One sidecar instance: what it has numbered, how much of that has been
      acknowledged, and whether its one final push has been sent. */
  datatype Client = Client(streamId: string, log: seq<Interval>, acked: nat, finalSent: bool, exit: Option<int>)

  /** A batch on the network, with the position in its client's log where it starts. */
  datatype Push = Push(batch: Batch, lo: nat)
  {
    function Hi(): nat
    {
      lo + |batch.intervals|
    }
  }

  datatype Wire = Wire(
    runId: int,
    clients: map<ShardKey, Client>,
    sent: seq<Push>,            // every push ever made; any of them may still arrive
    answered: set<nat>,         // pushes the control plane accepted at least once
    waiting: map<ShardKey, nat>,// the push each client is waiting on
    work: Work)

  datatype Step =
    | Consume(k: ShardKey, ivs: seq<Interval>)
    | Send(k: ShardKey, final: bool, exit: Option<int>)
    | Deliver(i: nat)
    | Ack(k: ShardKey)
    | GiveUp(k: ShardKey)

  ghost predicate Enabled(w: Wire, s: Step)
  {
    match s
    case Consume(k, ivs) => k in w.clients && !w.clients[k].finalSent && FromOne(w.clients[k].log + ivs)
    case Send(k, final, exit) => k in w.clients && !w.clients[k].finalSent && k !in w.waiting && (!final ==> exit == None)
    case Deliver(i) => i < |w.sent|
    case Ack(k) => k in w.waiting && k in w.clients && w.waiting[k] in w.answered && w.waiting[k] < |w.sent|
    case GiveUp(k) => k in w.waiting
  }

  function BatchOf(runId: int, k: ShardKey, c: Client, final: bool, exit: Option<int>): Batch
    requires c.acked <= |c.log|
  {
    Batch(runId, k, c.streamId, final, exit, c.log[c.acked..])
  }

  /** The effect of a step. A batch that does not validate is refused and changes nothing. */
  ghost function After(w: Wire, s: Step): Wire
    requires Enabled(w, s) && ClientSide(w)
  {
    match s
    case Consume(k, ivs) =>
      var c := w.clients[k];
      w.(clients := w.clients[k := c.(log := c.log + ivs)])
    case Send(k, final, exit) =>
      var c := w.clients[k];
      var p := Push(BatchOf(w.runId, k, c, final, exit), c.acked);
      var c' := if final then c.(finalSent := true, exit := exit) else c;
      w.(clients := w.clients[k := c'], sent := w.sent + [p], waiting := w.waiting[k := |w.sent|])
    case Deliver(i) =>
      var b := w.sent[i].batch;
      if Validate(b).Some? then w
      else w.(work := Absorbed(w.work, b), answered := w.answered + {i})
    case Ack(k) =>
      var c := w.clients[k];
      w.(clients := w.clients[k := c.(acked := c.acked + |w.sent[w.waiting[k]].batch.intervals|)], waiting := w.waiting - {k})
    case GiveUp(k) =>
      w.(waiting := w.waiting - {k})
  }

  // ------------------------------------------------------------------
  // What holds of the clients and the network, whatever the control plane does.

  ghost predicate ClientOk(c: Client)
  {
    && FromOne(c.log)
    && c.acked <= |c.log|
    && (!c.finalSent ==> c.exit == None)
  }

  /** A push is a slice of its client's log that starts no later than what is acknowledged. */
  ghost predicate PushOk(p: Push, c: Client)
  {
    && p.batch.streamId == c.streamId
    && p.lo <= c.acked
    && p.Hi() <= |c.log|
    && p.batch.intervals == c.log[p.lo..p.Hi()]
    && (p.batch.final ==> c.finalSent && p.Hi() == |c.log| && p.batch.exitCode == c.exit)
    && (!p.batch.final ==> p.batch.exitCode == None)
  }

  ghost predicate PushesOk(runId: int, sent: seq<Push>, clients: map<ShardKey, Client>)
  {
    forall i :: 0 <= i < |sent| ==>
      && sent[i].batch.runId == runId
      && sent[i].batch.key in clients
      && PushOk(sent[i], clients[sent[i].batch.key])
  }

  ghost predicate WaitingOk(waiting: map<ShardKey, nat>, sent: seq<Push>, clients: map<ShardKey, Client>)
  {
    forall k :: k in waiting ==>
      && k in clients
      && waiting[k] < |sent|
      && sent[waiting[k]].batch.key == k
      && sent[waiting[k]].lo == clients[k].acked
  }

  ghost predicate ClientSide(w: Wire)
  {
    && (forall k :: k in w.clients ==> ClientOk(w.clients[k]))
    && PushesOk(w.runId, w.sent, w.clients)
    && WaitingOk(w.waiting, w.sent, w.clients)
    && (forall i :: i in w.answered ==> i < |w.sent|)
  }

  // ------------------------------------------------------------------
  // What holds of the working state until it is discarded.

  /** What the run holds from a shard is a prefix of what that shard numbered, it
      covers everything acknowledged, and the watermark is its length. */
  ghost predicate ShardOk(work: Work, k: ShardKey, c: Client)
  {
    var absorbed := ShardLog(work.log, k);
    && absorbed <= c.log
    && c.acked <= |absorbed|
    && (k !in work.shards ==> absorbed == [])
    && (k in work.shards ==>
          var row := work.shards[k];
          && row.streamId == c.streamId
          && row.seqNo == |absorbed|
          && (row.finished ==> c.finalSent && absorbed == c.log && row.exitCode == c.exit)
          && (!row.finished ==> row.exitCode == None))
  }

  ghost predicate ServerSide(w: Wire)
  {
    && w.work.shards.Keys <= w.clients.Keys
    && (forall k :: k in w.clients ==> ShardOk(w.work, k, w.clients[k]))
    && AnsweredOk(w.sent, w.answered, w.work)
  }

  ghost predicate Initial(w: Wire)
  {
    && w.runId > 0
    && w.sent == [] && w.answered == {} && w.waiting == map[] && w.work == Empty
    && forall k :: k in w.clients ==>
         k.scenarioId > 0 && w.clients[k] == Client(w.clients[k].streamId, [], 0, false, None)
  }

  lemma InitialOk(w: Wire)
    requires Initial(w)
    ensures ClientSide(w) && ServerSide(w)
  {
  }

  /** A client only moves forward: its log grows until the final push, and what is acknowledged grows. */
  ghost predicate Advances(c: Client, c': Client)
  {
    && c'.streamId == c.streamId
    && c.log <= c'.log
    && c.acked <= c'.acked
    && (c.finalSent ==> c'.finalSent && c'.log == c.log && c'.exit == c.exit)
  }

  lemma PushStaysOk(p: Push, c: Client, c': Client)
    requires PushOk(p, c) && Advances(c, c')
    ensures PushOk(p, c')
  {
    assert c'.log[p.lo..p.Hi()] == c.log[p.lo..p.Hi()];
  }

  lemma PushesStayOk(w: Wire, k: ShardKey, c': Client)
    requires PushesOk(w.runId, w.sent, w.clients) && k in w.clients && Advances(w.clients[k], c')
    ensures PushesOk(w.runId, w.sent, w.clients[k := c'])
  {
    forall i | 0 <= i < |w.sent| && w.sent[i].batch.key == k
      ensures PushOk(w.sent[i], c')
    {
      PushStaysOk(w.sent[i], w.clients[k], c');
    }
  }

  lemma SendKept(w: Wire, k: ShardKey, final: bool, exit: Option<int>)
    requires ClientSide(w) && Enabled(w, Send(k, final, exit))
    ensures ClientSide(After(w, Send(k, final, exit)))
  {
    var w' := After(w, Send(k, final, exit));
    var c, c' := w.clients[k], w'.clients[k];
    PushesStayOk(w, k, c');
    assert c.log[c.acked..] == c.log[c.acked..c.acked + |c.log[c.acked..]|];
    var p := w'.sent[|w.sent|];
    assert PushOk(p, c');
    assert w'.sent == w.sent + [p];
  }

  lemma AckKept(w: Wire, k: ShardKey)
    requires ClientSide(w) && Enabled(w, Ack(k))
    ensures ClientSide(After(w, Ack(k)))
  {
    var c' := After(w, Ack(k)).clients[k];
    assert PushOk(w.sent[w.waiting[k]], w.clients[k]);
    PushesStayOk(w, k, c');
  }

  lemma ConsumeKept(w: Wire, k: ShardKey, ivs: seq<Interval>)
    requires ClientSide(w) && Enabled(w, Consume(k, ivs))
    ensures ClientSide(After(w, Consume(k, ivs)))
  {
    PushesStayOk(w, k, After(w, Consume(k, ivs)).clients[k]);
  }

  lemma StepAdvances(w: Wire, s: Step, k: ShardKey)
    requires ClientSide(w) && Enabled(w, s) && k in w.clients
    ensures k in After(w, s).clients && Advances(w.clients[k], After(w, s).clients[k])
  {
  }

  lemma ClientSideKept(w: Wire, s: Step)
    requires ClientSide(w) && Enabled(w, s)
    ensures ClientSide(After(w, s))
    ensures After(w, s).clients.Keys == w.clients.Keys && After(w, s).runId == w.runId
  {
    match s {
      case Consume(k, ivs) => ConsumeKept(w, k, ivs);
      case Send(k, final, exit) => SendKept(w, k, final, exit);
      case Deliver(i) =>
      case Ack(k) => AckKept(w, k);
      case GiveUp(k) =>
    }
  }

  // ------------------------------------------------------------------
  // Delivering a slice.

  /** Filtering a slice of a gapless log by a watermark inside it leaves just the part beyond the watermark. */
  lemma {:induction false} FreshOfSlice(log: seq<Interval>, lo: nat, hi: nat, mark: nat)
    requires FromOne(log) && lo <= hi <= |log| && mark <= |log|
    ensures Fresh(log[lo..hi], mark) == if hi <= mark then [] else if lo <= mark then log[mark..hi] else log[lo..hi]
    decreases hi - lo
  {
    var slice := log[lo..hi];
    if lo < hi {
      assert slice[0] == log[lo] && slice[1..] == log[lo + 1..hi];
      FreshOfSlice(log, lo + 1, hi, mark);
      if lo >= mark {
        assert log[lo..hi] == [log[lo]] + log[lo + 1..hi];
      }
    } else {
      assert slice == [];
    }
  }

  lemma HighestOfSlice(log: seq<Interval>, lo: nat, hi: nat, mark: nat)
    requires FromOne(log) && lo <= hi <= |log| && lo <= mark
    ensures Highest(log[lo..hi], mark) == if hi <= mark then mark else hi
  {
    var slice := log[lo..hi];
    var h := Highest(slice, mark);
    assert forall i :: 0 <= i < |slice| ==> slice[i].seqNo == lo + i + 1;
    if lo < hi {
      assert slice[|slice| - 1].seqNo == hi;
    }
  }

  lemma PrefixGrows(log: seq<Interval>, mark: nat, hi: nat)
    requires mark <= hi <= |log|
    ensures log[..mark] + log[mark..hi] == log[..hi]
    ensures log[mark..mark] == []
  {
  }

  /** What absorbing a push leaves of its shard: the longer of the two prefixes. */
  lemma AbsorbSlice(work: Work, p: Push, c: Client)
    requires ClientOk(c) && PushOk(p, c) && ShardOk(work, p.batch.key, c)
    ensures var mark := |ShardLog(work.log, p.batch.key)|;
            && Watermark(work, p.batch) == mark
            && ShardLog(Absorbed(work, p.batch).log, p.batch.key) == c.log[..if p.Hi() <= mark then mark else p.Hi()]
  {
    var mark := |ShardLog(work.log, p.batch.key)|;
    AbsorbedLog(work, p.batch, p.batch.key);
    SliceAdds(c.log, p.lo, p.Hi(), mark, ShardLog(work.log, p.batch.key));
  }

  /** A prefix, and then what lies beyond it of a slice that starts inside it. */
  lemma SliceAdds(log: seq<Interval>, lo: nat, hi: nat, mark: nat, absorbed: seq<Interval>)
    requires FromOne(log) && lo <= hi <= |log| && lo <= mark <= |log| && absorbed == log[..mark]
    ensures absorbed + Fresh(log[lo..hi], mark) == log[..if hi <= mark then mark else hi]
  {
    FreshOfSlice(log, lo, hi, mark);
    if mark < hi {
      PrefixGrows(log, mark, hi);
    }
  }

  /** Absorbing any push ever made keeps the shard's contribution a prefix, now at least as long as the push reaches. */
  lemma AbsorbPush(work: Work, p: Push, c: Client)
    requires ClientOk(c) && PushOk(p, c) && ShardOk(work, p.batch.key, c)
    ensures var k := p.batch.key; var work' := Absorbed(work, p.batch);
            && ShardOk(work', k, c)
            && p.Hi() <= |ShardLog(work'.log, k)|
            && |ShardLog(work.log, k)| <= |ShardLog(work'.log, k)|
            && (p.batch.final || (k in work.shards && work.shards[k].finished) ==> work'.shards[k].finished)
  {
    AbsorbSlice(work, p, c);
    HighestOfSlice(c.log, p.lo, p.Hi(), |ShardLog(work.log, p.batch.key)|);
  }

  lemma DeliverOthers(work: Work, b: Batch, k: ShardKey, c: Client)
    requires ShardOk(work, k, c) && k != b.key
    ensures ShardOk(Absorbed(work, b), k, c)
    ensures ShardLog(Absorbed(work, b).log, k) == ShardLog(work.log, k)
  {
    AbsorbedLog(work, b, k);
    assert ShardLog(work.log, k) + [] == ShardLog(work.log, k);
  }

  ghost predicate AnsweredOk(sent: seq<Push>, answered: set<nat>, work: Work)
  {
    forall i :: i in answered && i < |sent| ==> Reached(sent[i], work)
  }

  lemma DeliverKept(w: Wire, i: nat)
    requires ClientSide(w) && ServerSide(w) && i < |w.sent|
    ensures ServerSide(After(w, Deliver(i)))
  {
    if Validate(w.sent[i].batch).None? {
      DeliverShards(w, i);
      DeliverAnswers(w, i);
    }
  }

  lemma DeliverShards(w: Wire, i: nat)
    requires ClientSide(w) && ServerSide(w) && i < |w.sent|
    ensures forall k :: k in w.clients ==> ShardOk(Absorbed(w.work, w.sent[i].batch), k, w.clients[k])
  {
    var p := w.sent[i];
    forall k | k in w.clients ensures ShardOk(Absorbed(w.work, p.batch), k, w.clients[k]) {
      assert ShardOk(w.work, k, w.clients[k]);
      if k == p.batch.key {
        assert PushOk(p, w.clients[k]);
        AbsorbPush(w.work, p, w.clients[k]);
      } else {
        DeliverOthers(w.work, p.batch, k, w.clients[k]);
      }
    }
  }

  /** What one accepted push reaches, the record reaches. */
  ghost predicate Reached(p: Push, work: Work)
  {
    && p.Hi() <= |ShardLog(work.log, p.batch.key)|
    && (p.batch.final ==> p.batch.key in work.shards && work.shards[p.batch.key].finished)
  }

  lemma DeliverAnswers(w: Wire, i: nat)
    requires ClientSide(w) && ServerSide(w) && i < |w.sent|
    ensures AnsweredOk(w.sent, w.answered + {i}, Absorbed(w.work, w.sent[i].batch))
  {
    var work' := Absorbed(w.work, w.sent[i].batch);
    forall j | j in w.answered + {i} && j < |w.sent| ensures Reached(w.sent[j], work') {
      DeliverReaches(w, i, j);
    }
  }

  lemma DeliverReaches(w: Wire, i: nat, j: nat)
    requires ClientSide(w) && ServerSide(w) && i < |w.sent| && j < |w.sent|
    requires j == i || Reached(w.sent[j], w.work)
    ensures Reached(w.sent[j], Absorbed(w.work, w.sent[i].batch))
  {
    var p, q := w.sent[i], w.sent[j];
    var c := w.clients[q.batch.key];
    assert ShardOk(w.work, q.batch.key, c);
    if q.batch.key == p.batch.key {
      assert PushOk(p, c);
      ReachedByOwn(w.work, p, q, c, j == i);
    } else {
      DeliverOthers(w.work, p.batch, q.batch.key, c);
    }
  }

  lemma ReachedByOwn(work: Work, p: Push, q: Push, c: Client, same: bool)
    requires ClientOk(c) && PushOk(p, c) && ShardOk(work, p.batch.key, c) && q.batch.key == p.batch.key
    requires if same then q == p else Reached(q, work)
    ensures Reached(q, Absorbed(work, p.batch))
  {
    AbsorbPush(work, p, c);
  }

  lemma ServerSideKept(w: Wire, s: Step)
    requires ClientSide(w) && ServerSide(w) && Enabled(w, s)
    ensures ServerSide(After(w, s))
  {
    match s {
      case Consume(k, ivs) => assert ShardOk(w.work, k, w.clients[k]);
      case Send(k, final, exit) => assert ShardOk(w.work, k, w.clients[k]);
      case Deliver(i) => DeliverKept(w, i);
      case Ack(k) => assert ShardOk(w.work, k, w.clients[k]);
      case GiveUp(k) =>
    }
  }

  // ------------------------------------------------------------------
  // What this means.

  /** A sidecar's pushes are never refused as malformed. */
  lemma PushesValidate(w: Wire, i: nat)
    requires ClientSide(w) && i < |w.sent|
    requires w.runId > 0 && w.sent[i].batch.key.scenarioId > 0
    ensures Validate(w.sent[i].batch).None?
  {
    var p := w.sent[i];
    assert PushOk(p, w.clients[p.batch.key]);
  }

  /** The control plane has accepted a final push of shard `k`. */
  ghost predicate FinalAccepted(w: Wire, k: ShardKey)
  {
    exists i :: i in w.answered && i < |w.sent| && w.sent[i].batch.key == k && w.sent[i].batch.final
  }

  /** Exactly once, in order: a shard's absorbed intervals are the first `n`
      numbered ones, each once; those and the pending ones cover everything;
      and once the final push has been acknowledged the prefix is everything. */
  lemma ExactlyOnce(w: Wire, k: ShardKey)
    requires ClientSide(w) && ServerSide(w) && k in w.clients
    ensures var absorbed := ShardLog(w.work.log, k); var log := w.clients[k].log;
            && |absorbed| <= |log| && absorbed == log[..|absorbed|]
            && w.clients[k].acked <= |absorbed|
            && log[..w.clients[k].acked] <= absorbed
    ensures FinalAccepted(w, k) ==> ShardLog(w.work.log, k) == w.clients[k].log
  {
    assert ShardOk(w.work, k, w.clients[k]);
    if FinalAccepted(w, k) {
      assert w.work.shards[k].finished;
    }
  }

  /** Over any schedule of steps from the start, both invariants hold. */
  ghost predicate Runs(w: Wire, steps: seq<Step>, w': Wire)
    decreases |steps|
  {
    if steps == [] then w' == w
    else ClientSide(w) && Enabled(w, steps[0]) && Runs(After(w, steps[0]), steps[1..], w')
  }

  lemma {:induction false} RunsKeep(w: Wire, steps: seq<Step>, w': Wire)
    requires ClientSide(w) && ServerSide(w) && Runs(w, steps, w')
    ensures ClientSide(w') && ServerSide(w') && w'.clients.Keys == w.clients.Keys
    decreases |steps|
  {
    if steps != [] {
      ClientSideKept(w, steps[0]);
      ServerSideKept(w, steps[0]);
      RunsKeep(After(w, steps[0]), steps[1..], w');
    }
  }

  /** The end-to-end theorem over every schedule: exactly a prefix, each once and
      in order; and everything, once a final push was accepted. */
  lemma DeliveredExactlyOnce(w: Wire, steps: seq<Step>, w': Wire, k: ShardKey)
    requires Initial(w) && Runs(w, steps, w') && k in w.clients
    ensures k in w'.clients
    ensures ShardLog(w'.work.log, k) <= w'.clients[k].log
    ensures w'.clients[k].acked <= |ShardLog(w'.work.log, k)|
    ensures FromOne(ShardLog(w'.work.log, k))
    ensures FinalAccepted(w', k) ==> ShardLog(w'.work.log, k) == w'.clients[k].log
  {
    InitialOk(w);
    RunsKeep(w, steps, w');
    ExactlyOnce(w', k);
    assert ClientOk(w'.clients[k]);
  }

  lemma {:induction false} RunIdKept(w: Wire, steps: seq<Step>, w': Wire)
    requires ClientSide(w) && Runs(w, steps, w')
    ensures w'.runId == w.runId && w'.clients.Keys == w.clients.Keys && ClientSide(w')
    decreases |steps|
  {
    if steps != [] {
      ClientSideKept(w, steps[0]);
      RunIdKept(After(w, steps[0]), steps[1..], w');
    }
  }

  /** Over every schedule no push is refused as malformed, so an undelivered one is only ever lost or late. */
  lemma NeverMalformed(w: Wire, steps: seq<Step>, w': Wire, i: nat)
    requires Initial(w) && Runs(w, steps, w') && i < |w'.sent|
    ensures Validate(w'.sent[i].batch).None?
  {
    InitialOk(w);
    RunIdKept(w, steps, w');
    assert w'.sent[i].batch.key in w.clients;
    PushesValidate(w', i);
  }

  // ------------------------------------------------------------------
  // From bytes to the record.

  /** What reading `chunk` after `stream` adds. */
  ghost function More(r: Reader, stream: seq<byte>, chunk: seq<byte>): (ivs: seq<Interval>)
    ensures r.Intervals(stream + chunk) == r.Intervals(stream) + ivs
    ensures FromOne(r.Intervals(stream) + ivs)
  {
    r.IntervalsGrow(stream, chunk);
    r.NumberedFromOne(Lines.Lines(stream + chunk));
    r.Intervals(stream + chunk)[|r.Intervals(stream)|..]
  }

  lemma RunsCons(w: Wire, s: Step, w1: Wire, rest: seq<Step>, w': Wire)
    requires ClientSide(w) && Enabled(w, s) && w1 == After(w, s) && Runs(w1, rest, w')
    ensures Runs(w, [s] + rest, w')
  {
    assert ([s] + rest)[1..] == rest;
  }

  /** How a push ends for its client: answered with success, or given up on. */
  ghost function Ending(k: ShardKey, i: nat, ok: bool): seq<Step>
  {
    if ok then [Deliver(i)] + [Ack(k)] else [GiveUp(k)]
  }

  /** What a client has after its push ended. */
  ghost predicate Ended(w: Wire, k: ShardKey, n: nat, w': Wire)
  {
    && ClientSide(w') && w'.runId == w.runId && k !in w'.waiting && k in w.clients && k in w'.clients
    && w'.clients[k] == w.clients[k].(acked := w.clients[k].acked + n) && w'.sent == w.sent
  }

  lemma PushAnswered(w: Wire, k: ShardKey, i: nat) returns (w': Wire)
    requires ClientSide(w) && w.runId > 0 && k.scenarioId > 0 && k in w.waiting && w.waiting[k] == i
    ensures Runs(w, Ending(k, i, true), w') && i < |w.sent| && Ended(w, k, |w.sent[i].batch.intervals|, w')
  {
    var w1 := After(w, Deliver(i));
    DeliveredNow(w, i);
    ClientSideKept(w, Deliver(i));
    w' := AckedNow(w1, k);
    RunsCons(w, Deliver(i), w1, [Ack(k)], w');
  }

  lemma AckedNow(w: Wire, k: ShardKey) returns (w': Wire)
    requires ClientSide(w) && Enabled(w, Ack(k))
    ensures Runs(w, [Ack(k)], w') && Ended(w, k, |w.sent[w.waiting[k]].batch.intervals|, w')
  {
    w' := After(w, Ack(k));
    ClientSideKept(w, Ack(k));
    OneStep(w, Ack(k), w');
  }

  lemma PushGivenUp(w: Wire, k: ShardKey, i: nat) returns (w': Wire)
    requires ClientSide(w) && k in w.waiting && w.waiting[k] == i
    ensures Runs(w, Ending(k, i, false), w') && Ended(w, k, 0, w')
  {
    w' := After(w, GiveUp(k));
    ClientSideKept(w, GiveUp(k));
    OneStep(w, GiveUp(k), w');
  }

  lemma PushEnds(w: Wire, k: ShardKey, i: nat, ok: bool) returns (w': Wire)
    requires ClientSide(w) && w.runId > 0 && k.scenarioId > 0 && k in w.waiting && w.waiting[k] == i
    ensures Runs(w, Ending(k, i, ok), w') && i < |w.sent| && Ended(w, k, if ok then |w.sent[i].batch.intervals| else 0, w')
  {
    if ok {
      w' := PushAnswered(w, k, i);
    } else {
      w' := PushGivenUp(w, k, i);
    }
  }

  lemma OneStep(w: Wire, s: Step, w': Wire)
    requires ClientSide(w) && Enabled(w, s) && w' == After(w, s)
    ensures Runs(w, [s], w')
  {
    RunsCons(w, s, w', [], w');
    assert [s] + [] == [s];
  }

  lemma DeliveredNow(w: Wire, i: nat)
    requires ClientSide(w) && w.runId > 0 && i < |w.sent| && w.sent[i].batch.key.scenarioId > 0
    ensures var w1 := After(w, Deliver(i));
            i in w1.answered && w1.clients == w.clients && w1.sent == w.sent && w1.waiting == w.waiting && w1.runId == w.runId
  {
    PushesValidate(w, i);
  }

  /** What the network sees of a flush: a send, what is read while it is under way, and the end of the push. */
  ghost function FlushSteps(k: ShardKey, final: bool, exit: Option<int>, read: seq<Interval>, i: nat, ok: bool): seq<Step>
  {
    [Send(k, final, exit)] + if final then Ending(k, i, ok) else [Consume(k, read)] + Ending(k, i, ok)
  }

  lemma FlushRuns(w: Wire, k: ShardKey, final: bool, exit: Option<int>, read: seq<Interval>, ok: bool) returns (w': Wire)
    requires ClientSide(w) && Enabled(w, Send(k, final, exit)) && w.runId > 0 && k.scenarioId > 0
    requires (final ==> read == []) && FromOne(w.clients[k].log + read)
    ensures Runs(w, FlushSteps(k, final, exit, read, |w.sent|, ok), w') && ClientSide(w') && w'.runId == w.runId
    ensures k in w'.clients && k !in w'.waiting && w'.clients[k].streamId == w.clients[k].streamId
    ensures w'.clients[k].log == w.clients[k].log + read && w'.clients[k].finalSent == final
    ensures w'.clients[k].acked == if ok then |w.clients[k].log| else w.clients[k].acked
    ensures |w.sent| < |w'.sent| && w'.sent[|w.sent|].batch == Batch(w.runId, k, w.clients[k].streamId, final, exit, w.clients[k].log[w.clients[k].acked..])
  {
    var i := |w.sent|;
    var w1 := After(w, Send(k, final, exit));
    ClientSideKept(w, Send(k, final, exit));
    if final {
      w' := PushEnds(w1, k, i, ok);
      RunsCons(w, Send(k, final, exit), w1, Ending(k, i, ok), w');
    } else {
      var w2 := After(w1, Consume(k, read));
      ClientSideKept(w1, Consume(k, read));
      w' := PushEnds(w2, k, i, ok);
      RunsCons(w1, Consume(k, read), w2, Ending(k, i, ok), w');
      RunsCons(w, Send(k, final, exit), w1, [Consume(k, read)] + Ending(k, i, ok), w');
    }
  }

  /** The client on the wire is this sidecar: same numbering, same acknowledgements. */
  ghost predicate Mirrors(w: Wire, s: Sidecar)
    reads s
  {
    && s.Valid() && ClientSide(w) && w.runId == s.runId && s.key in w.clients && s.key !in w.waiting
    && w.clients[s.key].streamId == s.streamId && w.clients[s.key].log == s.Consumed() && w.clients[s.key].acked == s.acked
  }

  /** A sidecar's flush is a run of the protocol: with nothing to push, no step;
      otherwise a send of exactly what is pending, whatever is read meanwhile,
      and then an acknowledgement or a giving up. Before and after, the client
      on the wire is the sidecar. */
  method FlushOnWire(s: Sidecar, ghost w: Wire, final: bool, ok: bool, meanwhile: seq<seq<byte>>)
    returns (err: bool, ghost steps: seq<Step>, ghost w': Wire)
    requires Mirrors(w, s) && !w.clients[s.key].finalSent && s.runId > 0 && s.key.scenarioId > 0
    requires if final then meanwhile == [] else s.exitCode == None
    modifies s
    ensures Runs(w, steps, w') && Mirrors(w', s)
    ensures s.stream == old(s.stream) || s.stream == old(s.stream) + Lines.Joined(meanwhile)
    ensures old(s.pending) == [] && !final ==> steps == []
    ensures old(s.pending) != [] || final ==>
              steps == FlushSteps(s.key, final, old(s.exitCode), More(s.reader, old(s.stream), Lines.Joined(meanwhile)), |w.sent|, ok)
    ensures old(s.pending) != [] || final ==>
              && |w.sent| < |w'.sent| && |old(s.pushes)| < |s.pushes|
              && w'.sent[|w.sent|].batch == s.pushes[|old(s.pushes)|]
  {
    ghost var read := More(s.reader, s.stream, Lines.Joined(meanwhile));
    ghost var before, exit := s.stream, s.exitCode;
    ghost var pushes := s.pending != [] || final;
    assert Lines.Joined([]) == [] && before + [] == before;
    err := s.Flush(final, ok, meanwhile);
    if pushes {
      w' := FlushRuns(w, s.key, final, exit, read, ok);
      steps := FlushSteps(s.key, final, exit, read, |w.sent|, ok);
    } else {
      w', steps := w, [];
    }
  }

  datatype ByteStep = Feed(k: ShardKey, chunk: seq<byte>) | Other(step: Step)

  /** Feeding bytes to a sidecar is a consume step of its client; every other step is itself. */
  ghost function AsStep(r: Reader, streams: map<ShardKey, seq<byte>>, b: ByteStep): Step
    requires b.Feed? ==> b.k in streams
  {
    match b
    case Feed(k, chunk) => Consume(k, More(r, streams[k], chunk))
    case Other(s) => s
  }

  function Read(streams: map<ShardKey, seq<byte>>, b: ByteStep): map<ShardKey, seq<byte>>
  {
    if b.Feed? && b.k in streams then streams[b.k := streams[b.k] + b.chunk] else streams
  }

  /** A schedule in which sidecars read bytes. */
  ghost predicate ByteRuns(r: Reader, w: Wire, streams: map<ShardKey, seq<byte>>, steps: seq<ByteStep>, w': Wire, streams': map<ShardKey, seq<byte>>)
    decreases |steps|
  {
    if steps == [] then w' == w && streams' == streams
    else
      && (if steps[0].Feed? then steps[0].k in streams else !steps[0].step.Consume?)
      && ClientSide(w) && Enabled(w, AsStep(r, streams, steps[0]))
      && ByteRuns(r, After(w, AsStep(r, streams, steps[0])), Read(streams, steps[0]), steps[1..], w', streams')
  }

  /** Each client has numbered exactly what its stream says. */
  ghost predicate Tracks(r: Reader, w: Wire, streams: map<ShardKey, seq<byte>>)
  {
    streams.Keys == w.clients.Keys && forall k :: k in streams ==> w.clients[k].log == r.Intervals(streams[k])
  }

  lemma StepTracks(r: Reader, w: Wire, streams: map<ShardKey, seq<byte>>, b: ByteStep)
    requires Tracks(r, w, streams) && ClientSide(w)
    requires if b.Feed? then b.k in streams else !b.step.Consume?
    requires Enabled(w, AsStep(r, streams, b))
    ensures Tracks(r, After(w, AsStep(r, streams, b)), Read(streams, b))
  {
    match b {
      case Feed(k, chunk) => FeedTracks(r, w, streams, k, chunk);
      case Other(s) =>
        forall k | k in w.clients ensures k in After(w, s).clients && After(w, s).clients[k].log == w.clients[k].log {
          LogKept(w, s, k);
        }
        ClientSideKept(w, s);
    }
  }

  lemma LogKept(w: Wire, s: Step, k: ShardKey)
    requires ClientSide(w) && Enabled(w, s) && !s.Consume? && k in w.clients
    ensures k in After(w, s).clients && After(w, s).clients[k].log == w.clients[k].log
  {
  }

  lemma FeedTracks(r: Reader, w: Wire, streams: map<ShardKey, seq<byte>>, k: ShardKey, chunk: seq<byte>)
    requires Tracks(r, w, streams) && ClientSide(w) && k in streams && Enabled(w, Consume(k, More(r, streams[k], chunk)))
    ensures Tracks(r, After(w, Consume(k, More(r, streams[k], chunk))), streams[k := streams[k] + chunk])
  {
  }

  lemma {:induction false} BytesTracked(r: Reader, w: Wire, streams: map<ShardKey, seq<byte>>, steps: seq<ByteStep>, w': Wire, streams': map<ShardKey, seq<byte>>)
    requires Tracks(r, w, streams) && ClientSide(w) && ServerSide(w) && ByteRuns(r, w, streams, steps, w', streams')
    ensures Tracks(r, w', streams') && ClientSide(w') && ServerSide(w')
    decreases |steps|
  {
    if steps != [] {
      var s := AsStep(r, streams, steps[0]);
      StepTracks(r, w, streams, steps[0]);
      ClientSideKept(w, s);
      ServerSideKept(w, s);
      BytesTracked(r, After(w, s), Read(streams, steps[0]), steps[1..], w', streams');
    }
  }

  /** From bytes to the record, over every schedule of reads, pushes, losses and
      repeats: what the run holds of a shard is a prefix of what the parseable
      complete lines say that its sidecar read; after an accepted final push it
      is one interval per such line, in order, saying what the line says. */
  lemma EveryLineReported(r: Reader, w: Wire, streams: map<ShardKey, seq<byte>>, steps: seq<ByteStep>, w': Wire, streams': map<ShardKey, seq<byte>>, k: ShardKey)
    requires Initial(w) && streams.Keys == w.clients.Keys && (forall x :: x in streams ==> streams[x] == [])
    requires ByteRuns(r, w, streams, steps, w', streams') && k in streams'
    ensures var log := ShardLog(w'.work.log, k); var lines := Lines.Lines(streams'[k]);
            && log <= r.Numbered(lines) && r.Reports(lines, r.Numbered(lines))
            && (FinalAccepted(w', k) ==> r.Reports(lines, log))
  {
    r.NumberedReports(Lines.Lines(streams'[k]));
    InitialOk(w);
    BytesTracked(r, w, streams, steps, w', streams');
    ExactlyOnce(w', k);
  }
}
