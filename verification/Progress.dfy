/** A run's working state while it is still running: what each shard has
    pushed, filtered by a per-shard sequence watermark. */
module Progress {
  import opened Common

  /** One second of one request's measurement, numbered by the sidecar that sent it. */
  datatype Interval = Interval(seqNo: int, timestamp: int, request: string, samples: int, failed: int)

  /** A pod within a run: a shard index repeats across scenarios and across clusters. */
  datatype ShardKey = ShardKey(scenarioId: int, cluster: string, shardIndex: int)

  datatype Batch = Batch(
    runId: int,
    key: ShardKey,
    streamId: string,
    final: bool,
    exitCode: Option<int>,
    intervals: seq<Interval>)

  /** Every interval carries a number its sidecar gave it. */
  predicate Sequenced(ivs: seq<Interval>)
  {
    forall i :: 0 <= i < |ivs| ==> ivs[i].seqNo > 0
  }

  datatype BatchError = RunRequired | ScenarioRequired | Unsequenced

  /** A batch that cannot be absorbed safely is refused, the run and the scenario being checked first. */
  function Validate(b: Batch): (r: Option<BatchError>)
    ensures r.None? <==> b.runId > 0 && b.key.scenarioId > 0 && Sequenced(b.intervals)
    ensures r == Some(RunRequired) <==> b.runId <= 0
    ensures r == Some(Unsequenced) ==> b.runId > 0 && b.key.scenarioId > 0
  {
    if b.runId <= 0 then Some(RunRequired)
    else if b.key.scenarioId <= 0 then Some(ScenarioRequired)
    else if exists i :: 0 <= i < |b.intervals| && b.intervals[i].seqNo <= 0 then Some(Unsequenced)
    else None
  }

  /** One shard's position: which sidecar instance it hears, how far, and how it ended. */
  datatype ShardRow = ShardRow(streamId: string, seqNo: int, finished: bool, exitCode: Option<int>)

  /** What a run has accumulated. The log keeps each absorbed measurement with the shard it came from. */
  datatype Work = Work(log: seq<(ShardKey, Interval)>, shards: map<ShardKey, ShardRow>)

  const Empty := Work([], map[])

  function Row(w: Work, b: Batch): ShardRow
  {
    if b.key in w.shards then w.shards[b.key] else ShardRow(b.streamId, 0, false, None)
  }

  /** The sequence already absorbed from the batch's own stream: a new stream starts again at zero. */
  function Watermark(w: Work, b: Batch): int
  {
    if Row(w, b).streamId == b.streamId then Row(w, b).seqNo else 0
  }

  /** The intervals beyond the watermark. */
  function Fresh(ivs: seq<Interval>, watermark: int): seq<Interval>
  {
    Filter(ivs, (iv: Interval) => iv.seqNo > watermark)
  }

  /** The highest sequence among `ivs` and the watermark. */
  function Highest(ivs: seq<Interval>, watermark: int): (h: int)
    ensures watermark <= h
    ensures forall i :: 0 <= i < |ivs| ==> ivs[i].seqNo <= h
    ensures h == watermark || exists i :: 0 <= i < |ivs| && ivs[i].seqNo == h
  {
    if ivs == [] then watermark
    else
      var last := |ivs| - 1;
      var h := Highest(ivs[..last], watermark);
      if ivs[last].seqNo > h then ivs[last].seqNo else h
  }

  function Tag(key: ShardKey, ivs: seq<Interval>): seq<(ShardKey, Interval)>
  {
    seq(|ivs|, i requires 0 <= i < |ivs| => (key, ivs[i]))
  }

  /** Merging a shard's batch: only what lies beyond the watermark counts, and the shard's row advances. */
  function Absorbed(w: Work, b: Batch): Work
  {
    var wm := Watermark(w, b);
    var row := Row(w, b);
    Work(
      w.log + Tag(b.key, Fresh(b.intervals, wm)),
      w.shards[b.key := ShardRow(
        b.streamId,
        Highest(b.intervals, wm),
        row.finished || b.final,
        if b.exitCode.Some? then b.exitCode else row.exitCode)])
  }

  /** What one shard contributed, in the order it was absorbed. */
  function ShardLog(log: seq<(ShardKey, Interval)>, k: ShardKey): seq<Interval>
  {
    if log == [] then []
    else (if log[0].0 == k then [log[0].1] else []) + ShardLog(log[1..], k)
  }

  lemma {:induction false} ShardLogConcat(a: seq<(ShardKey, Interval)>, b: seq<(ShardKey, Interval)>, k: ShardKey)
    ensures ShardLog(a + b, k) == ShardLog(a, k) + ShardLog(b, k)
  {
    if a == [] {
      assert a + b == b;
    } else {
      assert (a + b)[1..] == a[1..] + b;
      ShardLogConcat(a[1..], b, k);
    }
  }

  lemma {:induction false} ShardLogTag(key: ShardKey, ivs: seq<Interval>, k: ShardKey)
    ensures ShardLog(Tag(key, ivs), k) == if k == key then ivs else []
  {
    if ivs != [] {
      assert Tag(key, ivs)[1..] == Tag(key, ivs[1..]);
      ShardLogTag(key, ivs[1..], k);
    }
  }

  /** Absorbing touches one shard's contribution and appends exactly the fresh intervals to it. */
  lemma AbsorbedLog(w: Work, b: Batch, k: ShardKey)
    ensures ShardLog(Absorbed(w, b).log, k)
         == ShardLog(w.log, k) + (if k == b.key then Fresh(b.intervals, Watermark(w, b)) else [])
  {
    var added := Fresh(b.intervals, Watermark(w, b));
    ShardLogConcat(w.log, Tag(b.key, added), k);
    ShardLogTag(b.key, added, k);
  }

  /** What a batch adds, spelled out: from the stream the shard is known by, the
      intervals beyond the last number heard; from an unknown shard or a
      restarted sidecar, every numbered one. Its row then names the batch's
      stream, and a last push or an exit code is never forgotten. */
  lemma AbsorbedSpelledOut(w: Work, b: Batch)
    ensures ShardLog(Absorbed(w, b).log, b.key) == ShardLog(w.log, b.key) +
              if b.key in w.shards && w.shards[b.key].streamId == b.streamId
              then Filter(b.intervals, (iv: Interval) => iv.seqNo > w.shards[b.key].seqNo)
              else Filter(b.intervals, (iv: Interval) => iv.seqNo > 0)
    ensures (b.key !in w.shards || w.shards[b.key].streamId != b.streamId) && Sequenced(b.intervals) ==>
              ShardLog(Absorbed(w, b).log, b.key) == ShardLog(w.log, b.key) + b.intervals
    ensures Absorbed(w, b).shards.Keys == w.shards.Keys + {b.key}
    ensures forall k :: k in w.shards && k != b.key ==> Absorbed(w, b).shards[k] == w.shards[k]
    ensures var row := Absorbed(w, b).shards[b.key];
            && row.streamId == b.streamId
            && (row.finished <==> b.final || (b.key in w.shards && w.shards[b.key].finished))
            && (b.exitCode.Some? ==> row.exitCode == b.exitCode)
            && (b.exitCode.None? ==> row.exitCode == if b.key in w.shards then w.shards[b.key].exitCode else None)
  {
    AbsorbedLog(w, b, b.key);
    if b.key in w.shards && w.shards[b.key].streamId == b.streamId {
      FilterSame(b.intervals, (iv: Interval) => iv.seqNo > Watermark(w, b), (iv: Interval) => iv.seqNo > w.shards[b.key].seqNo);
    } else {
      FilterSame(b.intervals, (iv: Interval) => iv.seqNo > Watermark(w, b), (iv: Interval) => iv.seqNo > 0);
      if Sequenced(b.intervals) {
        AllFresh(b.intervals);
      }
    }
  }

  lemma {:induction false} AllFresh(ivs: seq<Interval>)
    requires Sequenced(ivs)
    ensures Filter(ivs, (iv: Interval) => iv.seqNo > 0) == ivs
  {
    if ivs != [] {
      AllFresh(ivs[1..]);
    }
  }

  lemma {:induction false} NothingFresh(ivs: seq<Interval>, watermark: int)
    requires forall i :: 0 <= i < |ivs| ==> ivs[i].seqNo <= watermark
    ensures Fresh(ivs, watermark) == []
  {
    if ivs != [] {
      NothingFresh(ivs[1..], watermark);
    }
  }

  /** Absorbing the same batch twice leaves the same state as once, whatever the batch carries. */
  lemma AbsorbIdempotent(w: Work, b: Batch)
    ensures Absorbed(Absorbed(w, b), b) == Absorbed(w, b)
  {
    var once := Absorbed(w, b);
    var h := Highest(b.intervals, Watermark(w, b));
    assert Watermark(once, b) == h;
    NothingFresh(b.intervals, h);
    assert Highest(b.intervals, h) == h;
    assert Tag(b.key, []) == [];
  }

  // ------------------------------------------------------------------
  // The in-memory implementation of the same port advances its watermark
  // inside the loop instead of after it.

  function Running(ivs: seq<Interval>, watermark: int): (r: (seq<Interval>, int))
    decreases |ivs|
  {
    if ivs == [] then ([], watermark)
    else if ivs[0].seqNo <= watermark then Running(ivs[1..], watermark)
    else
      var rest := Running(ivs[1..], ivs[0].seqNo);
      ([ivs[0]] + rest.0, rest.1)
  }

  ghost predicate Increasing(ivs: seq<Interval>)
  {
    forall i, j :: 0 <= i < j < |ivs| ==> ivs[i].seqNo < ivs[j].seqNo
  }

  lemma {:induction false} RunningIncreases(ivs: seq<Interval>, watermark: int)
    ensures var r := Running(ivs, watermark);
            && Increasing(r.0)
            && watermark <= r.1
            && (r.0 == [] ==> r.1 == watermark)
            && (r.0 != [] ==> r.0[0].seqNo > watermark && r.1 == r.0[|r.0| - 1].seqNo)
    decreases |ivs|
  {
    if ivs != [] {
      if ivs[0].seqNo <= watermark {
        RunningIncreases(ivs[1..], watermark);
      } else {
        RunningIncreases(ivs[1..], ivs[0].seqNo);
      }
    }
  }

  lemma {:induction false} RaiseWatermark(ivs: seq<Interval>, low: int, high: int)
    requires low <= high
    requires forall i :: 0 <= i < |Fresh(ivs, low)| ==> Fresh(ivs, low)[i].seqNo > high
    ensures Fresh(ivs, low) == Fresh(ivs, high)
  {
    if ivs != [] {
      var f := Fresh(ivs, low);
      var g := Fresh(ivs[1..], low);
      assert f == (if ivs[0].seqNo > low then [ivs[0]] else []) + g;
      forall i | 0 <= i < |g| ensures g[i].seqNo > high {
        assert g[i] == f[|f| - |g| + i];
      }
      RaiseWatermark(ivs[1..], low, high);
      assert ivs[0].seqNo > low ==> f[0] == ivs[0];
    }
  }

  lemma {:induction false} IncreasingAgree(ivs: seq<Interval>, watermark: int)
    requires Increasing(Fresh(ivs, watermark))
    ensures Running(ivs, watermark).0 == Fresh(ivs, watermark)
    decreases |ivs|
  {
    if ivs != [] {
      var f := Fresh(ivs, watermark);
      var g := Fresh(ivs[1..], watermark);
      assert f == (if ivs[0].seqNo > watermark then [ivs[0]] else []) + g;
      assert Increasing(g) by {
        forall i, j | 0 <= i < j < |g| ensures g[i].seqNo < g[j].seqNo {
          assert g[i] == f[|f| - |g| + i] && g[j] == f[|f| - |g| + j];
        }
      }
      if ivs[0].seqNo > watermark {
        forall i | 0 <= i < |g| ensures g[i].seqNo > ivs[0].seqNo {
          assert f[0] == ivs[0] && f[i + 1] == g[i];
        }
        RaiseWatermark(ivs[1..], watermark, ivs[0].seqNo);
        IncreasingAgree(ivs[1..], ivs[0].seqNo);
      } else {
        IncreasingAgree(ivs[1..], watermark);
      }
    }
  }

  lemma {:induction false} HighestOfFresh(ivs: seq<Interval>, watermark: int)
    requires Increasing(Fresh(ivs, watermark))
    ensures var f := Fresh(ivs, watermark);
            Highest(ivs, watermark) == if f == [] then watermark else f[|f| - 1].seqNo
  {
    var f := Fresh(ivs, watermark);
    assert forall i :: 0 <= i < |ivs| ==> ivs[i] in f || ivs[i].seqNo <= watermark;
    if f != [] {
      assert f[|f| - 1] in f;
      assert forall x :: x in f ==> x.seqNo <= f[|f| - 1].seqNo;
    }
  }

  /** The two implementations of the port agree on a batch exactly when its
      fresh part is strictly increasing, which is what a sidecar always sends. */
  lemma StoresAgree(ivs: seq<Interval>, watermark: int)
    ensures Running(ivs, watermark) == (Fresh(ivs, watermark), Highest(ivs, watermark))
        <==> Increasing(Fresh(ivs, watermark))
  {
    RunningIncreases(ivs, watermark);
    if Increasing(Fresh(ivs, watermark)) {
      IncreasingAgree(ivs, watermark);
      HighestOfFresh(ivs, watermark);
    }
  }

  /** On a batch that goes backwards the two differ: one counts an interval the other drops. */
  lemma StoresDisagree(a: Interval, b: Interval)
    requires 0 < a.seqNo < b.seqNo
    ensures Running([b, a], 0).0 == [b]
    ensures Fresh([b, a], 0) == [b, a]
  {
    assert [b, a][1..] == [a];
    assert Running([a], b.seqNo).0 == [];
    assert Fresh([a], 0) == [a];
  }

  /** One pass over a batch: what is new, and how far it reaches. */
  method BeyondWatermark(ivs: seq<Interval>, watermark: int) returns (added: seq<Interval>, highest: int)
    ensures added == Fresh(ivs, watermark)
    ensures highest == Highest(ivs, watermark)
  {
    added, highest := [], watermark;
    for i := 0 to |ivs|
      invariant added == Fresh(ivs[..i], watermark)
      invariant highest == Highest(ivs[..i], watermark)
    {
      FilterSnoc(ivs, i, (x: Interval) => x.seqNo > watermark);
      assert ivs[..i + 1][..i] == ivs[..i];
      if ivs[i].seqNo > watermark {
        added := added + [ivs[i]];
        if ivs[i].seqNo > highest {
          highest := ivs[i].seqNo;
        }
      }
    }
    assert ivs[..|ivs|] == ivs;
  }

  /** The store itself: one working state per run, changed in place. */
  class ReportProgress {
    var runs: map<int, Work>

    constructor ()
      ensures runs == map[]
    {
      runs := map[];
    }

    function Of(runId: int): Work
      reads this
    {
      if runId in runs then runs[runId] else Empty
    }

    /** Merge a batch, skipping what was already absorbed. A refused batch changes nothing. */
    method Absorb(b: Batch) returns (err: Option<BatchError>)
      modifies this
      ensures err == Validate(b)
      ensures err.Some? ==> runs == old(runs)
      ensures err.None? ==> runs == old(runs)[b.runId := Absorbed(old(Of(b.runId)), b)]
    {
      err := Validate(b);
      if err.Some? {
        return;
      }
      var w := Of(b.runId);
      var row := Row(w, b);
      var watermark := if row.streamId == b.streamId then row.seqNo else 0;
      var added, highest := BeyondWatermark(b.intervals, watermark);
      var exitCode := if b.exitCode.Some? then b.exitCode else row.exitCode;
      var row' := ShardRow(b.streamId, highest, row.finished || b.final, exitCode);
      runs := runs[b.runId := Work(w.log + Tag(b.key, added), w.shards[b.key := row'])];
    }

    /** Drop a run's working state; dropping nothing is not an error. */
    method Discard(runId: int)
      modifies this
      ensures runs == old(runs) - {runId}
      ensures Of(runId) == Empty
    {
      runs := runs - {runId};
    }
  }
}
