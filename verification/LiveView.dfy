/** The live view's second, in-memory deduplication, and the per-cluster tally
    counted behind it. Does it agree with the permanent record? */
module LiveView {
  import opened Common
  import opened Progress
  import opened Delivery
  import opened IntervalKeys
  import S = Sidecar

  type Item = (ShardKey, Interval)

  function KeyOf(x: Item): string
  {
    IntervalKey(x.0.cluster, x.0.shardIndex, x.0.scenarioId, x.1.timestamp, x.1.request)
  }

  ghost function Keys(feed: seq<Item>): set<string>
  {
    set x | x in feed :: KeyOf(x)
  }

  /** The items that were new when they arrived. */
  function Firsts(feed: seq<Item>): (out: seq<Item>)
    ensures forall x :: x in out ==> x in feed
  {
    if feed == [] then []
    else
      var n := |feed| - 1;
      var before := Firsts(feed[..n]);
      if exists i :: 0 <= i < n && KeyOf(feed[i]) == KeyOf(feed[n]) then before else before + [feed[n]]
  }

  datatype Counts = Counts(samples: int, failed: int)

  function FromCluster(c: string): Item -> bool
  {
    (x: Item) => x.0.cluster == c
  }

  function Samples(feed: seq<Item>, c: string): int
  {
    Sum(Filter(feed, FromCluster(c)), (x: Item) => x.1.samples)
  }

  function Failures(feed: seq<Item>, c: string): int
  {
    Sum(Filter(feed, FromCluster(c)), (x: Item) => x.1.failed)
  }

  function TallyOf(feed: seq<Item>, c: string): Counts
  {
    Counts(Samples(feed, c), Failures(feed, c))
  }

  lemma TallySnoc(feed: seq<Item>, x: Item, c: string)
    ensures TallyOf(feed + [x], c)
         == if x.0.cluster == c then Counts(Samples(feed, c) + x.1.samples, Failures(feed, c) + x.1.failed) else TallyOf(feed, c)
  {
    var p := FromCluster(c);
    FilterConcat(feed, [x], p);
    assert Filter([x], p) == if p(x) then [x] else [];
    if p(x) {
      SumConcat(Filter(feed, p), [x], (y: Item) => y.1.samples);
      SumConcat(Filter(feed, p), [x], (y: Item) => y.1.failed);
      assert Sum([x], (y: Item) => y.1.samples) == x.1.samples;
      assert Sum([x], (y: Item) => y.1.failed) == x.1.failed;
    } else {
      assert Filter(feed, p) + [] == Filter(feed, p);
    }
  }

  function Added(counts: map<string, Counts>, x: Item): map<string, Counts>
  {
    var cur := if x.0.cluster in counts then counts[x.0.cluster] else Counts(0, 0);
    counts[x.0.cluster := Counts(cur.samples + x.1.samples, cur.failed + x.1.failed)]
  }

  ghost predicate CountsOk(counts: map<string, Counts>, items: seq<Item>)
  {
    && (forall c :: c in counts ==> counts[c] == TallyOf(items, c))
    && (forall x :: x in items ==> x.0.cluster in counts)
  }

  lemma AddedCounts(counts: map<string, Counts>, items: seq<Item>, x: Item)
    requires CountsOk(counts, items)
    ensures CountsOk(Added(counts, x), items + [x])
  {
    NothingCounted(items, x.0.cluster);
    forall c | c in Added(counts, x) ensures Added(counts, x)[c] == TallyOf(items + [x], c) {
      TallySnoc(items, x, c);
    }
    assert forall y :: y in items + [x] <==> y in items || y == x;
  }

  // ------------------------------------------------------------------
  // The two in-memory maps. Seen keys are kept by execution, tallies by run: what
  // an execution's stopped run left behind is still there when its next run starts.

  datatype Views = Views(seen: map<int, set<string>>, tallies: map<int, map<string, Counts>>)

  function SeenOf(v: Views, e: int): set<string>
  {
    if e in v.seen then v.seen[e] else {}
  }

  function CountsOf(v: Views, run: int): map<string, Counts>
  {
    if run in v.tallies then v.tallies[run] else map[]
  }

  /** Not among the keys carried over. */
  function Unseen(carried: set<string>): Item -> bool
  {
    (x: Item) => KeyOf(x) !in carried
  }

  /** A run's view since its first push: the execution's keys are those carried
      over and those fed, and each cluster's count is the tally of the first
      arrivals whose key was not carried over. */
  ghost predicate ViewOk(carried: set<string>, seen: set<string>, counts: map<string, Counts>, feed: seq<Item>)
  {
    seen == carried + Keys(feed) && CountsOk(counts, Firsts(Filter(feed, Unseen(carried))))
  }

  lemma UnseenSnoc(carried: set<string>, feed: seq<Item>, x: Item)
    ensures Filter(feed + [x], Unseen(carried)) == Filter(feed, Unseen(carried)) + (if KeyOf(x) in carried then [] else [x])
  {
    FilterConcat(feed, [x], Unseen(carried));
    assert Filter([x], Unseen(carried)) == if KeyOf(x) in carried then [] else [x];
  }

  lemma UnseenKeys(carried: set<string>, feed: seq<Item>, key: string)
    requires key !in carried
    ensures key in Keys(Filter(feed, Unseen(carried))) <==> key in Keys(feed)
  {
    if key in Keys(feed) {
      var x :| x in feed && KeyOf(x) == key;
      assert x in Filter(feed, Unseen(carried));
    }
    if key in Keys(Filter(feed, Unseen(carried))) {
      var x :| x in Filter(feed, Unseen(carried)) && KeyOf(x) == key;
      assert x in feed;
    }
  }

  lemma TakeSeen(carried: set<string>, seen: set<string>, counts: map<string, Counts>, feed: seq<Item>, x: Item)
    requires ViewOk(carried, seen, counts, feed) && KeyOf(x) in seen
    ensures ViewOk(carried, seen, counts, feed + [x])
  {
    KeysSnoc(feed, x);
    UnseenSnoc(carried, feed, x);
    if KeyOf(x) !in carried {
      UnseenKeys(carried, feed, KeyOf(x));
      FirstsSnoc(Filter(feed, Unseen(carried)), x);
    } else {
      assert Filter(feed, Unseen(carried)) + [] == Filter(feed, Unseen(carried));
    }
  }

  lemma TakeNew(carried: set<string>, seen: set<string>, counts: map<string, Counts>, feed: seq<Item>, x: Item)
    requires ViewOk(carried, seen, counts, feed) && KeyOf(x) !in seen
    ensures ViewOk(carried, seen + {KeyOf(x)}, Added(counts, x), feed + [x])
  {
    KeysSnoc(feed, x);
    NewFirst(carried, feed, x);
    AddedCounts(counts, Firsts(Filter(feed, Unseen(carried))), x);
  }

  lemma NewFirst(carried: set<string>, feed: seq<Item>, x: Item)
    requires KeyOf(x) !in carried && KeyOf(x) !in Keys(feed)
    ensures Firsts(Filter(feed + [x], Unseen(carried))) == Firsts(Filter(feed, Unseen(carried))) + [x]
  {
    UnseenSnoc(carried, feed, x);
    UnseenKeys(carried, feed, KeyOf(x));
    FirstsSnoc(Filter(feed, Unseen(carried)), x);
  }

  function Put(v: Views, e: int, seen: set<string>, run: int, counts: map<string, Counts>): (v': Views)
    ensures SeenOf(v', e) == seen && CountsOf(v', run) == counts
    ensures forall d :: d != e ==> SeenOf(v', d) == SeenOf(v, d)
    ensures forall r :: r != run ==> CountsOf(v', r) == CountsOf(v, r)
  {
    Views(v.seen[e := seen], v.tallies[run := counts])
  }

  class LiveViews {
    var views: Views

    constructor ()
      ensures views == Views(map[], map[])
    {
      views := Views(map[], map[]);
    }

    /** Mark one measurement for its execution; count it for its run only if its key is new. */
    method Take(e: int, run: int, x: Item, ghost carried: set<string>, ghost feed: seq<Item>)
      requires ViewOk(carried, SeenOf(views, e), CountsOf(views, run), feed)
      modifies this
      ensures ViewOk(carried, SeenOf(views, e), CountsOf(views, run), feed + [x])
      ensures forall d :: d != e ==> SeenOf(views, d) == SeenOf(old(views), d)
      ensures forall r :: r != run ==> CountsOf(views, r) == CountsOf(old(views), r)
    {
      var key := KeyOf(x);
      if key in SeenOf(views, e) {
        TakeSeen(carried, SeenOf(views, e), CountsOf(views, run), feed, x);
      } else {
        TakeNew(carried, SeenOf(views, e), CountsOf(views, run), feed, x);
        var seen, counts := SeenOf(views, e) + {key}, Added(CountsOf(views, run), x);
        views := Put(views, e, seen, run, counts);
      }
    }

    /** The ingest loop over one batch. */
    method TakeBatch(e: int, run: int, b: Batch, ghost carried: set<string>, ghost feed: seq<Item>)
      requires ViewOk(carried, SeenOf(views, e), CountsOf(views, run), feed)
      modifies this
      ensures ViewOk(carried, SeenOf(views, e), CountsOf(views, run), feed + Tag(b.key, b.intervals))
      ensures forall d :: d != e ==> SeenOf(views, d) == SeenOf(old(views), d)
      ensures forall r :: r != run ==> CountsOf(views, r) == CountsOf(old(views), r)
    {
      ghost var items := Tag(b.key, b.intervals);
      assert feed + items[..0] == feed;
      for i := 0 to |b.intervals|
        invariant ViewOk(carried, SeenOf(views, e), CountsOf(views, run), feed + items[..i])
        invariant forall d :: d != e ==> SeenOf(views, d) == SeenOf(old(views), d)
        invariant forall r :: r != run ==> CountsOf(views, r) == CountsOf(old(views), r)
      {
        Take(e, run, (b.key, b.intervals[i]), carried, feed + items[..i]);
        Extend(feed, items, i);
      }
      assert items[..|b.intervals|] == items;
    }

    /** Natural completion forgets both: the execution's next run starts with nothing carried over. */
    method Forget(e: int, run: int, ghost next: int)
      requires next !in views.tallies
      modifies this
      ensures ViewOk({}, SeenOf(views, e), CountsOf(views, next), [])
      ensures run !in views.tallies
      ensures forall d :: d != e ==> SeenOf(views, d) == SeenOf(old(views), d)
      ensures forall r :: r != run ==> CountsOf(views, r) == CountsOf(old(views), r)
    {
      views := Views(views.seen - {e}, views.tallies - {run});
    }
  }

  /** A stop forgets nothing: the execution's next run starts with every key the stopped one fed carried over. */
  lemma StopCarriesOver(v: Views, e: int, run: int, next: int, carried: set<string>, feed: seq<Item>)
    requires ViewOk(carried, SeenOf(v, e), CountsOf(v, run), feed) && next !in v.tallies
    ensures ViewOk(carried + Keys(feed), SeenOf(v, e), CountsOf(v, next), [])
  {
    assert Keys([]) == {};
    assert Filter([], Unseen(carried + Keys(feed))) == [];
  }

  lemma Extend(a: seq<Item>, b: seq<Item>, i: nat)
    requires i < |b|
    ensures (a + b[..i]) + [b[i]] == a + b[..i + 1]
  {
  }

  lemma KeysSnoc(feed: seq<Item>, x: Item)
    ensures Keys(feed + [x]) == Keys(feed) + {KeyOf(x)}
  {
    assert forall y :: y in feed + [x] <==> y in feed || y == x;
    assert x in feed + [x];
    forall k | k in Keys(feed) ensures k in Keys(feed + [x]) {
      var y :| y in feed && KeyOf(y) == k;
      assert y in feed + [x];
    }
  }

  lemma FirstsSnoc(feed: seq<Item>, x: Item)
    ensures Firsts(feed + [x]) == if KeyOf(x) in Keys(feed) then Firsts(feed) else Firsts(feed) + [x]
  {
    var all := feed + [x];
    assert all[..|feed|] == feed && all[|feed|] == x;
    if KeyOf(x) in Keys(feed) {
      var y :| y in feed && KeyOf(y) == KeyOf(x);
      var i :| 0 <= i < |feed| && feed[i] == y;
      assert all[i] == y;
    } else {
      assert forall i :: 0 <= i < |feed| ==> all[i] in feed;
    }
  }

  lemma {:induction false} NothingCounted(feed: seq<Item>, c: string)
    ensures (forall x :: x in feed ==> x.0.cluster != c) ==> TallyOf(feed, c) == Counts(0, 0)
  {
    if feed != [] {
      var n := |feed| - 1;
      assert feed == feed[..n] + [feed[n]];
      NothingCounted(feed[..n], c);
      TallySnoc(feed[..n], feed[n], c);
      assert feed[n] in feed;
    }
  }

  // ------------------------------------------------------------------
  // The tally counts each distinct key once.

  /** Keys tell the fed items apart. */
  ghost predicate KeysSeparate(feed: seq<Item>)
  {
    forall x, y :: x in feed && y in feed && KeyOf(x) == KeyOf(y) ==> x == y
  }

  ghost predicate Distinct(s: seq<Item>)
  {
    forall i, j :: 0 <= i < j < |s| ==> s[i] != s[j]
  }

  /** What is counted: every key that arrived, once, by its first arrival. */
  lemma {:induction false} FirstsCoverKeys(feed: seq<Item>)
    ensures Keys(Firsts(feed)) == Keys(feed)
    ensures forall i, j :: 0 <= i < j < |Firsts(feed)| ==> KeyOf(Firsts(feed)[i]) != KeyOf(Firsts(feed)[j])
  {
    if feed != [] {
      var n := |feed| - 1;
      var before, x := feed[..n], feed[n];
      assert feed == before + [x];
      FirstsCoverKeys(before);
      FirstsSnoc(before, x);
      KeysSnoc(before, x);
      if KeyOf(x) !in Keys(before) {
        KeysSnoc(Firsts(before), x);
        forall i | 0 <= i < |Firsts(before)| ensures KeyOf(Firsts(before)[i]) != KeyOf(x) {
          assert Firsts(before)[i] in Firsts(before);
          assert KeyOf(Firsts(before)[i]) in Keys(Firsts(before));
        }
      }
    }
  }

  lemma FirstsAreTheItems(feed: seq<Item>)
    requires KeysSeparate(feed)
    ensures Distinct(Firsts(feed)) && forall x :: x in Firsts(feed) <==> x in feed
  {
    FirstsCoverKeys(feed);
    forall x | x in feed ensures x in Firsts(feed) {
      assert KeyOf(x) in Keys(feed);
      var y :| y in Firsts(feed) && KeyOf(y) == KeyOf(x);
      assert y in feed;
    }
  }

  lemma {:induction false} CountDistinct(s: seq<Item>, x: Item)
    requires Distinct(s)
    ensures multiset(s)[x] == if x in s then 1 else 0
  {
    if s != [] {
      assert s == [s[0]] + s[1..];
      CountDistinct(s[1..], x);
      assert x == s[0] ==> x !in s[1..];
    }
  }

  lemma SameItemsSameMultiset(a: seq<Item>, b: seq<Item>)
    requires Distinct(a) && Distinct(b) && forall x :: x in a <==> x in b
    ensures multiset(a) == multiset(b)
  {
    forall x ensures multiset(a)[x] == multiset(b)[x] {
      CountDistinct(a, x);
      CountDistinct(b, x);
    }
  }

  lemma SameTally(a: seq<Item>, b: seq<Item>, c: string)
    requires multiset(a) == multiset(b)
    ensures TallyOf(a, c) == TallyOf(b, c)
  {
    var fa, fb := Filter(a, FromCluster(c)), Filter(b, FromCluster(c));
    forall x ensures multiset(fa)[x] == multiset(fb)[x] {
      FilterOccurs(a, FromCluster(c), x);
      FilterOccurs(b, FromCluster(c), x);
    }
    assert multiset(fa) == multiset(fb);
    SumPermutation(fa, fb, (x: Item) => x.1.samples);
    SumPermutation(fa, fb, (x: Item) => x.1.failed);
  }

  /** Retries and their order do not matter: two histories that carried the same
      measurements leave the same tally. */
  lemma TallyIgnoresRetries(feed: seq<Item>, feed': seq<Item>, c: string)
    requires KeysSeparate(feed) && forall x :: x in feed <==> x in feed'
    ensures TallyOf(Firsts(feed), c) == TallyOf(Firsts(feed'), c)
  {
    FirstsAreTheItems(feed);
    FirstsAreTheItems(feed');
    SameItemsSameMultiset(Firsts(feed), Firsts(feed'));
    SameTally(Firsts(feed), Firsts(feed'), c);
  }

  // ------------------------------------------------------------------
  // Against the permanent record. A run may be fed by sidecars that an earlier
  // run of the execution left in mid-stream: `base` is how far each of them had
  // got with the control plane when the run began.

  /** What the live view has been fed after a step: an accepted batch's intervals, each time it is delivered. */
  ghost function FedAfter(w: Wire, feed: seq<Item>, s: Step): seq<Item>
    requires Enabled(w, s)
  {
    if s.Deliver? && Validate(w.sent[s.i].batch).None? then feed + Tag(w.sent[s.i].batch.key, w.sent[s.i].batch.intervals)
    else feed
  }

  /** A schedule of pushes, with the live view watching. */
  ghost predicate Watched(w: Wire, feed: seq<Item>, steps: seq<Step>, w': Wire, feed': seq<Item>)
    decreases |steps|
  {
    if steps == [] then w' == w && feed' == feed
    else
      && ClientSide(w) && Enabled(w, steps[0])
      && Watched(After(w, steps[0]), FedAfter(w, feed, steps[0]), steps[1..], w', feed')
  }

  /** How far this run has heard a shard. */
  function MarkOf(work: Work, k: ShardKey): int
  {
    if k in work.shards then work.shards[k].seqNo else 0
  }

  function Max(a: int, b: int): int
  {
    if a < b then b else a
  }

  /** These items of one shard are numbered ones, none beyond `top`, and include all from `base` up to `mark`. */
  ghost predicate Holds(items: seq<Item>, k: ShardKey, log: seq<Interval>, base: int, mark: int, top: int)
  {
    && (forall x :: x in items && x.0 == k ==> x.1 in log && x.1.seqNo <= top)
    && (forall iv :: iv in log && base < iv.seqNo <= mark ==> (k, iv) in items)
  }

  ghost predicate NoRepeats(ivs: seq<Interval>)
  {
    forall i, j :: 0 <= i < j < |ivs| ==> ivs[i] != ivs[j]
  }

  /** One shard of a run: record and feed both hold all from `base` to the mark,
      and what is acknowledged is behind one or the other. */
  ghost predicate ShardFed(work: Work, k: ShardKey, c: Client, base: nat, feed: seq<Item>)
  {
    var mark := MarkOf(work, k);
    && 0 <= mark <= |c.log| && base <= |c.log|
    && c.acked <= Max(base, mark)
    && (k in work.shards ==> work.shards[k].streamId == c.streamId)
    && Holds(work.log, k, c.log, base, mark, mark)
    && Holds(feed, k, c.log, base, mark, Max(base, mark))
    && NoRepeats(ShardLog(work.log, k))
  }

  ghost predicate Known(items: seq<Item>, clients: map<ShardKey, Client>)
  {
    forall x :: x in items ==> x.0 in clients
  }

  /** The control plane has heard, in this run or before it, all this push carries. */
  ghost predicate PushHeard(p: Push, base: map<ShardKey, nat>, work: Work)
  {
    p.batch.key in base && p.Hi() <= Max(base[p.batch.key], MarkOf(work, p.batch.key))
  }

  ghost predicate AnsweredHeard(w: Wire, base: map<ShardKey, nat>)
  {
    forall i :: i in w.answered && i < |w.sent| ==> PushHeard(w.sent[i], base, w.work)
  }

  ghost predicate FedOk(w: Wire, base: map<ShardKey, nat>, feed: seq<Item>)
  {
    && ClientSide(w) && base.Keys == w.clients.Keys
    && Known(feed, w.clients) && Known(w.work.log, w.clients)
    && (forall k :: k in w.clients ==> ShardFed(w.work, k, w.clients[k], base[k], feed))
    && AnsweredHeard(w, base)
  }

  lemma {:induction false} ShardLogMember(log: seq<Item>, k: ShardKey, iv: Interval)
    ensures (k, iv) in log <==> iv in ShardLog(log, k)
  {
    if log != [] {
      ShardLogMember(log[1..], k, iv);
      assert log == [log[0]] + log[1..];
    }
  }

  lemma TagMember(key: ShardKey, ivs: seq<Interval>, x: Item)
    ensures x in Tag(key, ivs) <==> x.0 == key && x.1 in ivs
  {
    if x.0 == key && x.1 in ivs {
      var i :| 0 <= i < |ivs| && ivs[i] == x.1;
      assert Tag(key, ivs)[i] == x;
    }
  }

  /** In a gapless log the number says where an interval is. */
  lemma SliceMember(log: seq<Interval>, lo: nat, hi: nat, iv: Interval)
    requires S.FromOne(log) && lo <= hi <= |log|
    ensures iv in log[lo..hi] <==> iv in log && lo < iv.seqNo <= hi
  {
    if iv in log && lo < iv.seqNo <= hi {
      var i :| 0 <= i < |log| && log[i] == iv;
      assert log[lo..hi][i - lo] == iv;
    }
    if iv in log[lo..hi] {
      var i :| 0 <= i < hi - lo && log[lo..hi][i] == iv;
      assert log[lo + i] == iv;
    }
  }

  lemma GrownMember(log: seq<Interval>, log': seq<Interval>, iv: Interval)
    requires log <= log' && S.FromOne(log')
    ensures iv in log <==> iv in log' && iv.seqNo <= |log|
  {
    assert log == log'[0..|log|];
    SliceMember(log', 0, |log|, iv);
    if iv in log' {
      var i :| 0 <= i < |log'| && log'[i] == iv;
    }
  }

  /** Where a delivered slice leaves the mark. */
  lemma MarkAfter(c: Client, p: Push, mark: nat)
    requires ClientOk(c) && PushOk(p, c) && mark <= |c.log|
    ensures var mark' := Highest(p.batch.intervals, mark);
            && mark <= mark' <= |c.log|
            && (p.lo < p.Hi() ==> p.Hi() <= mark')
            && (mark' == mark || (mark' == p.Hi() && p.lo < p.Hi()))
  {
    var ivs := p.batch.intervals;
    assert forall i :: 0 <= i < |ivs| ==> ivs[i] == c.log[p.lo + i];
    if p.lo < p.Hi() {
      assert ivs[|ivs| - 1].seqNo == p.Hi();
    }
  }

  lemma FreshMember(ivs: seq<Interval>, mark: int, iv: Interval)
    ensures iv in Fresh(ivs, mark) <==> iv in ivs && iv.seqNo > mark
  {
  }

  /** Delivering a slice that starts behind what was heard: the record holds up to the new mark. */
  lemma RecordHolds(work: Work, p: Push, c: Client, base: nat, feed: seq<Item>)
    requires ClientOk(c) && PushOk(p, c) && ShardFed(work, p.batch.key, c, base, feed)
    ensures var mark' := MarkOf(Absorbed(work, p.batch), p.batch.key);
            Holds(Absorbed(work, p.batch).log, p.batch.key, c.log, base, mark', mark')
  {
    var b, k := p.batch, p.batch.key;
    var mark := MarkOf(work, k);
    var log' := Absorbed(work, b).log;
    MarkAfter(c, p, mark);
    forall iv ensures (k, iv) in log' <==> (k, iv) in work.log || (iv in c.log && p.lo < iv.seqNo <= p.Hi() && iv.seqNo > mark) {
      TagMember(k, Fresh(b.intervals, mark), (k, iv));
      FreshMember(b.intervals, mark, iv);
      SliceMember(c.log, p.lo, p.Hi(), iv);
    }
  }

  /** And so does the feed. */
  lemma FeedHolds(work: Work, p: Push, c: Client, base: nat, feed: seq<Item>)
    requires ClientOk(c) && PushOk(p, c) && ShardFed(work, p.batch.key, c, base, feed)
    ensures var mark' := MarkOf(Absorbed(work, p.batch), p.batch.key);
            Holds(feed + Tag(p.batch.key, p.batch.intervals), p.batch.key, c.log, base, mark', Max(base, mark'))
  {
    var b, k := p.batch, p.batch.key;
    var mark := MarkOf(work, k);
    var feed' := feed + Tag(k, b.intervals);
    MarkAfter(c, p, mark);
    forall iv ensures (k, iv) in feed' <==> (k, iv) in feed || (iv in c.log && p.lo < iv.seqNo <= p.Hi()) {
      TagMember(k, b.intervals, (k, iv));
      SliceMember(c.log, p.lo, p.Hi(), iv);
    }
  }

  lemma SliceDistinct(log: seq<Interval>, lo: nat, hi: nat)
    requires S.FromOne(log) && lo <= hi <= |log|
    ensures NoRepeats(log[lo..hi])
  {
    assert forall i :: 0 <= i < hi - lo ==> log[lo..hi][i] == log[lo + i];
  }

  lemma FreshDistinct(c: Client, p: Push, mark: nat)
    requires ClientOk(c) && PushOk(p, c) && mark <= |c.log|
    ensures NoRepeats(Fresh(p.batch.intervals, mark))
  {
    FreshOfSlice(c.log, p.lo, p.Hi(), mark);
    if mark < p.Hi() {
      SliceDistinct(c.log, if p.lo <= mark then mark else p.lo, p.Hi());
    }
  }

  lemma JoinDistinct(a: seq<Interval>, b: seq<Interval>, mark: int)
    requires NoRepeats(a) && NoRepeats(b)
    requires (forall iv :: iv in a ==> iv.seqNo <= mark) && (forall iv :: iv in b ==> iv.seqNo > mark)
    ensures NoRepeats(a + b)
  {
    forall i, j | 0 <= i < j < |a + b| ensures (a + b)[i] != (a + b)[j] {
      if i < |a| <= j {
        assert a[i] in a && b[j - |a|] in b;
      }
    }
  }

  lemma RecordNoRepeats(work: Work, p: Push, c: Client, base: nat, feed: seq<Item>)
    requires ClientOk(c) && PushOk(p, c) && ShardFed(work, p.batch.key, c, base, feed)
    ensures NoRepeats(ShardLog(Absorbed(work, p.batch).log, p.batch.key))
  {
    var k := p.batch.key;
    var mark := MarkOf(work, k);
    AbsorbedLog(work, p.batch, k);
    FreshDistinct(c, p, mark);
    forall iv | iv in ShardLog(work.log, k) ensures iv.seqNo <= mark {
      ShardLogMember(work.log, k, iv);
      assert (k, iv).0 == k;
    }
    JoinDistinct(ShardLog(work.log, k), Fresh(p.batch.intervals, mark), mark);
  }

  lemma DeliveredShard(work: Work, p: Push, c: Client, base: nat, feed: seq<Item>)
    requires ClientOk(c) && PushOk(p, c) && ShardFed(work, p.batch.key, c, base, feed)
    ensures ShardFed(Absorbed(work, p.batch), p.batch.key, c, base, feed + Tag(p.batch.key, p.batch.intervals))
    ensures MarkOf(work, p.batch.key) <= MarkOf(Absorbed(work, p.batch), p.batch.key)
    ensures p.Hi() <= Max(base, MarkOf(Absorbed(work, p.batch), p.batch.key))
  {
    MarkAfter(c, p, MarkOf(work, p.batch.key));
    RecordHolds(work, p, c, base, feed);
    FeedHolds(work, p, c, base, feed);
    RecordNoRepeats(work, p, c, base, feed);
  }

  /** Another shard's items do not matter. */
  lemma HoldsApart(items: seq<Item>, more: seq<Item>, k: ShardKey, log: seq<Interval>, base: int, mark: int, top: int)
    requires Holds(items, k, log, base, mark, top) && forall x :: x in more ==> x.0 != k
    ensures Holds(items + more, k, log, base, mark, top)
  {
  }

  lemma OtherShard(work: Work, b: Batch, k: ShardKey, c: Client, base: nat, feed: seq<Item>)
    requires ShardFed(work, k, c, base, feed) && k != b.key
    ensures ShardFed(Absorbed(work, b), k, c, base, feed + Tag(b.key, b.intervals))
  {
    var mark := MarkOf(work, k);
    assert MarkOf(Absorbed(work, b), k) == mark;
    HoldsApart(work.log, Tag(b.key, Fresh(b.intervals, Watermark(work, b))), k, c.log, base, mark, mark);
    HoldsApart(feed, Tag(b.key, b.intervals), k, c.log, base, mark, Max(base, mark));
    AbsorbedLog(work, b, k);
    assert ShardLog(work.log, k) + [] == ShardLog(work.log, k);
  }

  lemma DeliverShardsFed(w: Wire, i: nat, base: map<ShardKey, nat>, feed: seq<Item>)
    requires FedOk(w, base, feed) && i < |w.sent|
    ensures var b := w.sent[i].batch;
            forall k :: k in w.clients ==> ShardFed(Absorbed(w.work, b), k, w.clients[k], base[k], feed + Tag(b.key, b.intervals))
  {
    var p := w.sent[i];
    forall k | k in w.clients
      ensures ShardFed(Absorbed(w.work, p.batch), k, w.clients[k], base[k], feed + Tag(p.batch.key, p.batch.intervals))
    {
      if k == p.batch.key {
        DeliveredShard(w.work, p, w.clients[k], base[k], feed);
      } else {
        OtherShard(w.work, p.batch, k, w.clients[k], base[k], feed);
      }
    }
  }

  lemma DeliverHeard(w: Wire, i: nat, base: map<ShardKey, nat>, feed: seq<Item>)
    requires FedOk(w, base, feed) && i < |w.sent| && Validate(w.sent[i].batch).None?
    ensures ClientSide(After(w, Deliver(i))) && AnsweredHeard(After(w, Deliver(i)), base)
  {
    var w' := After(w, Deliver(i));
    ClientSideKept(w, Deliver(i));
    forall j | j in w'.answered ensures PushHeard(w.sent[j], base, w'.work) {
      if j in w.answered {
        assert PushHeard(w.sent[j], base, w.work);
      }
      HeardStays(w, i, j, base, feed);
    }
  }

  lemma HeardStays(w: Wire, i: nat, j: nat, base: map<ShardKey, nat>, feed: seq<Item>)
    requires FedOk(w, base, feed) && i < |w.sent| && j < |w.sent| && (j == i || PushHeard(w.sent[j], base, w.work))
    ensures PushHeard(w.sent[j], base, Absorbed(w.work, w.sent[i].batch))
  {
    var p := w.sent[i];
    var k := p.batch.key;
    assert PushOk(p, w.clients[k]) && ShardFed(w.work, k, w.clients[k], base[k], feed);
    DeliveredShard(w.work, p, w.clients[k], base[k], feed);
  }

  lemma TaggedKnown(items: seq<Item>, key: ShardKey, ivs: seq<Interval>, clients: map<ShardKey, Client>)
    requires Known(items, clients) && key in clients
    ensures Known(items + Tag(key, ivs), clients)
  {
  }

  lemma AbsorbedKnown(work: Work, b: Batch, clients: map<ShardKey, Client>)
    requires Known(work.log, clients) && b.key in clients
    ensures Known(Absorbed(work, b).log, clients)
  {
    TaggedKnown(work.log, b.key, Fresh(b.intervals, Watermark(work, b)), clients);
  }

  lemma DeliverFed(w: Wire, i: nat, base: map<ShardKey, nat>, feed: seq<Item>)
    requires FedOk(w, base, feed) && i < |w.sent|
    ensures FedOk(After(w, Deliver(i)), base, FedAfter(w, feed, Deliver(i)))
  {
    var b := w.sent[i].batch;
    if Validate(b).None? {
      DeliverShardsFed(w, i, base, feed);
      DeliverHeard(w, i, base, feed);
      TaggedKnown(feed, b.key, b.intervals, w.clients);
      AbsorbedKnown(w.work, b, w.clients);
      assert After(w, Deliver(i)) == w.(work := Absorbed(w.work, b), answered := w.answered + {i});
    }
  }

  lemma HoldsGrown(items: seq<Item>, k: ShardKey, log: seq<Interval>, log': seq<Interval>, base: int, mark: int, top: int)
    requires Holds(items, k, log, base, mark, top) && log <= log' && S.FromOne(log') && mark <= |log|
    ensures Holds(items, k, log', base, mark, top)
  {
    forall iv | iv in log' && base < iv.seqNo <= mark ensures (k, iv) in items {
      GrownMember(log, log', iv);
    }
  }

  /** A client that moves on without the control plane. */
  lemma ClientMoves(work: Work, k: ShardKey, c: Client, c': Client, base: nat, feed: seq<Item>)
    requires ShardFed(work, k, c, base, feed) && ClientOk(c') && Advances(c, c') && c'.acked <= Max(base, MarkOf(work, k))
    ensures ShardFed(work, k, c', base, feed)
  {
    var mark := MarkOf(work, k);
    HoldsGrown(work.log, k, c.log, c'.log, base, mark, mark);
    HoldsGrown(feed, k, c.log, c'.log, base, mark, Max(base, mark));
  }

  lemma QuietFed(w: Wire, s: Step, base: map<ShardKey, nat>, feed: seq<Item>)
    requires FedOk(w, base, feed) && Enabled(w, s) && !s.Deliver?
    ensures FedOk(After(w, s), base, feed)
  {
    var w' := After(w, s);
    ClientSideKept(w, s);
    QuietHeard(w, s, base);
    assert w'.work == w.work;
    forall k | k in w'.clients ensures ShardFed(w.work, k, w'.clients[k], base[k], feed) {
      QuietShard(w, s, base, feed, k);
    }
  }

  lemma QuietShard(w: Wire, s: Step, base: map<ShardKey, nat>, feed: seq<Item>, k: ShardKey)
    requires FedOk(w, base, feed) && Enabled(w, s) && !s.Deliver? && k in w.clients
    ensures k in After(w, s).clients && ShardFed(w.work, k, After(w, s).clients[k], base[k], feed)
  {
    StepAdvances(w, s, k);
    ClientSideKept(w, s);
    AckedHeard(w, s, base, feed, k);
    ClientMoves(w.work, k, w.clients[k], After(w, s).clients[k], base[k], feed);
  }

  lemma QuietHeard(w: Wire, s: Step, base: map<ShardKey, nat>)
    requires ClientSide(w) && AnsweredHeard(w, base) && Enabled(w, s) && !s.Deliver?
    ensures AnsweredHeard(After(w, s), base)
  {
    var w' := After(w, s);
    forall i | i in w'.answered && i < |w'.sent| ensures PushHeard(w'.sent[i], base, w'.work) {
      assert i < |w.sent| && w'.sent[i] == w.sent[i];
    }
  }

  lemma AckedHeard(w: Wire, s: Step, base: map<ShardKey, nat>, feed: seq<Item>, k: ShardKey)
    requires FedOk(w, base, feed) && Enabled(w, s) && !s.Deliver? && k in w.clients
    ensures k in After(w, s).clients && After(w, s).clients[k].acked <= Max(base[k], MarkOf(w.work, k))
  {
    assert ShardFed(w.work, k, w.clients[k], base[k], feed);
    if s.Ack? && s.k == k {
      var p := w.sent[w.waiting[k]];
      assert p.lo == w.clients[k].acked && p.batch.key == k;
    }
  }

  lemma StepFed(w: Wire, s: Step, base: map<ShardKey, nat>, feed: seq<Item>)
    requires FedOk(w, base, feed) && Enabled(w, s)
    ensures FedOk(After(w, s), base, FedAfter(w, feed, s))
  {
    if s.Deliver? {
      DeliverFed(w, s.i, base, feed);
    } else {
      QuietFed(w, s, base, feed);
    }
  }

  lemma {:induction false} WatchedFed(w: Wire, base: map<ShardKey, nat>, feed: seq<Item>, steps: seq<Step>, w': Wire, feed': seq<Item>)
    requires FedOk(w, base, feed) && Watched(w, feed, steps, w', feed')
    ensures FedOk(w', base, feed')
    ensures forall k :: k in w.clients ==> k in w'.clients && w.clients[k].log <= w'.clients[k].log
    decreases |steps|
  {
    if steps != [] {
      StepFed(w, steps[0], base, feed);
      forall k | k in w.clients ensures k in After(w, steps[0]).clients && w.clients[k].log <= After(w, steps[0]).clients[k].log {
        StepAdvances(w, steps[0], k);
      }
      WatchedFed(After(w, steps[0]), base, FedAfter(w, feed, steps[0]), steps[1..], w', feed');
    }
  }

  // ------------------------------------------------------------------
  // From run to run.

  /** The keys of everything up to `base` have been seen. */
  ghost predicate CarriedTo(clients: map<ShardKey, Client>, base: map<ShardKey, nat>, carried: set<string>)
    requires base.Keys == clients.Keys
  {
    forall k, iv :: k in clients && iv in clients[k].log && iv.seqNo <= base[k] ==> KeyOf((k, iv)) in carried
  }

  /** A run may begin: nothing absorbed, every sidecar wherever it is, and all it got across before already seen. */
  ghost predicate Begins(w: Wire, base: map<ShardKey, nat>, carried: set<string>)
  {
    w.work == Empty && FedOk(w, base, []) && CarriedTo(w.clients, base, carried)
  }

  /** Freshly deployed sidecars are the simple case: nothing has got across yet. */
  lemma FreshBegins(w: Wire, carried: set<string>)
    requires Initial(w)
    ensures Begins(w, map k | k in w.clients :: 0, carried)
  {
    InitialOk(w);
  }

  function Relabelled(sent: seq<Push>, run: int): seq<Push>
  {
    seq(|sent|, i requires 0 <= i < |sent| => sent[i].(batch := sent[i].batch.(runId := run)))
  }

  /** The next run of an execution whose pods a stop left deployed: their pushes,
      late ones included, now count for the new run. */
  function NextRun(w: Wire, run: int): Wire
  {
    w.(runId := run, sent := Relabelled(w.sent, run), work := Empty)
  }

  function Heard(w: Wire, base: map<ShardKey, nat>): map<ShardKey, nat>
    requires base.Keys == w.clients.Keys && forall k :: k in w.clients ==> MarkOf(w.work, k) >= 0
  {
    map k | k in w.clients :: Max(base[k], MarkOf(w.work, k)) as nat
  }

  lemma RelabelledOk(w: Wire, run: int)
    requires ClientSide(w)
    ensures ClientSide(NextRun(w, run))
  {
    var w' := NextRun(w, run);
    forall i | 0 <= i < |w'.sent| ensures w'.sent[i].batch.key in w'.clients && PushOk(w'.sent[i], w'.clients[w'.sent[i].batch.key]) {
      assert PushOk(w.sent[i], w.clients[w.sent[i].batch.key]);
    }
  }

  /** However a run was stopped, the next one may begin, with what its sidecars
      had got across as base and every key fed so far carried over. */
  lemma StopThenNextBegins(w: Wire, base: map<ShardKey, nat>, carried: set<string>, feed: seq<Item>, run: int)
    requires FedOk(w, base, feed) && CarriedTo(w.clients, base, carried)
    ensures forall k :: k in w.clients ==> MarkOf(w.work, k) >= 0
    ensures Begins(NextRun(w, run), Heard(w, base), carried + Keys(feed))
  {
    forall k | k in w.clients ensures MarkOf(w.work, k) >= 0 {
      assert ShardFed(w.work, k, w.clients[k], base[k], feed);
    }
    RelabelledOk(w, run);
    HeardShards(w, base, feed, run);
    HeardAnswers(w, base, feed, run);
    HeardCarried(w, base, carried, feed);
  }

  lemma HeardShards(w: Wire, base: map<ShardKey, nat>, feed: seq<Item>, run: int)
    requires FedOk(w, base, feed) && forall k :: k in w.clients ==> MarkOf(w.work, k) >= 0
    ensures forall k :: k in w.clients ==> ShardFed(Empty, k, w.clients[k], Heard(w, base)[k], [])
  {
    forall k | k in w.clients ensures ShardFed(Empty, k, w.clients[k], Heard(w, base)[k], []) {
      assert ShardFed(w.work, k, w.clients[k], base[k], feed);
      HeardShard(w.work, k, w.clients[k], base[k], feed);
    }
  }

  lemma HeardShard(work: Work, k: ShardKey, c: Client, base: nat, feed: seq<Item>)
    requires ShardFed(work, k, c, base, feed)
    ensures ShardFed(Empty, k, c, Max(base, MarkOf(work, k)), [])
  {
  }

  lemma HeardAnswers(w: Wire, base: map<ShardKey, nat>, feed: seq<Item>, run: int)
    requires FedOk(w, base, feed) && forall k :: k in w.clients ==> MarkOf(w.work, k) >= 0
    ensures AnsweredHeard(NextRun(w, run), Heard(w, base))
  {
    var w', heard := NextRun(w, run), Heard(w, base);
    forall i | i in w'.answered && i < |w'.sent| ensures PushHeard(w'.sent[i], heard, Empty) {
      assert PushHeard(w.sent[i], base, w.work);
    }
  }

  lemma HeardCarried(w: Wire, base: map<ShardKey, nat>, carried: set<string>, feed: seq<Item>)
    requires FedOk(w, base, feed) && CarriedTo(w.clients, base, carried) && forall k :: k in w.clients ==> MarkOf(w.work, k) >= 0
    ensures CarriedTo(w.clients, Heard(w, base), carried + Keys(feed))
  {
    var heard := Heard(w, base);
    forall k, iv | k in w.clients && iv in w.clients[k].log && iv.seqNo <= heard[k] ensures KeyOf((k, iv)) in carried + Keys(feed) {
      if iv.seqNo > base[k] {
        assert ShardFed(w.work, k, w.clients[k], base[k], feed);
        assert (k, iv) in feed;
      }
    }
  }

  // ------------------------------------------------------------------
  // The tally of any run.

  lemma DistinctFromShards(log: seq<Item>)
    requires forall k :: NoRepeats(ShardLog(log, k))
    ensures Distinct(log)
  {
    forall i, j | 0 <= i < j < |log| ensures log[i] != log[j] {
      if log[i] == log[j] {
        TwiceInShard(log, i, j);
      }
    }
  }

  lemma UnknownShard(log: seq<Item>, clients: map<ShardKey, Client>, k: ShardKey)
    requires Known(log, clients) && k !in clients
    ensures ShardLog(log, k) == []
  {
    if ShardLog(log, k) != [] {
      ShardLogMember(log, k, ShardLog(log, k)[0]);
    }
  }

  /** The record holds each measurement once. */
  lemma RecordDistinct(w: Wire, base: map<ShardKey, nat>, feed: seq<Item>)
    requires FedOk(w, base, feed)
    ensures Distinct(w.work.log)
  {
    forall k ensures NoRepeats(ShardLog(w.work.log, k)) {
      if k in w.clients {
        assert ShardFed(w.work, k, w.clients[k], base[k], feed);
      } else {
        UnknownShard(w.work.log, w.clients, k);
      }
    }
    DistinctFromShards(w.work.log);
  }

  lemma TwiceInShard(log: seq<Item>, i: nat, j: nat)
    requires i < j < |log| && log[i] == log[j]
    ensures var sl := ShardLog(log, log[i].0); exists a, b :: 0 <= a < b < |sl| && sl[a] == sl[b]
  {
    var k, iv := log[i].0, log[i].1;
    var before, after := log[..j], log[j..];
    assert log == before + after;
    ShardLogConcat(before, after, k);
    assert before[i] == (k, iv) && after[0] == (k, iv);
    assert (k, iv) in before && (k, iv) in after;
    ShardLogMember(before, k, iv);
    ShardLogMember(after, k, iv);
    var a :| 0 <= a < |ShardLog(before, k)| && ShardLog(before, k)[a] == iv;
    var b :| 0 <= b < |ShardLog(after, k)| && ShardLog(after, k)[b] == iv;
    var sl := ShardLog(log, k);
    assert sl[a] == iv && sl[|ShardLog(before, k)| + b] == iv;
  }

  /** No shard measures the same request twice in one second. */
  ghost predicate OncePerSecond(clients: map<ShardKey, Client>)
  {
    forall k :: k in clients ==>
      forall i, j :: 0 <= i < j < |clients[k].log| ==>
        clients[k].log[i].timestamp != clients[k].log[j].timestamp || clients[k].log[i].request != clients[k].log[j].request
  }

  ghost predicate NoBars(clients: map<ShardKey, Client>)
  {
    forall k :: k in clients ==> BAR !in k.cluster
  }

  lemma RecordSeparate(w: Wire, base: map<ShardKey, nat>, feed: seq<Item>)
    requires FedOk(w, base, feed) && OncePerSecond(w.clients) && NoBars(w.clients)
    ensures KeysSeparate(w.work.log)
  {
    forall x, y | x in w.work.log && y in w.work.log && KeyOf(x) == KeyOf(y) ensures x == y {
      InjectiveWithoutBars(x.0.cluster, x.0.shardIndex, x.0.scenarioId, x.1.timestamp, x.1.request,
        y.0.cluster, y.0.shardIndex, y.0.scenarioId, y.1.timestamp, y.1.request);
      assert ShardFed(w.work, x.0, w.clients[x.0], base[x.0], feed);
      OneAtATime(w.clients, x.0, x.1, y.1);
    }
  }

  lemma OneAtATime(clients: map<ShardKey, Client>, k: ShardKey, a: Interval, b: Interval)
    requires OncePerSecond(clients) && k in clients && a in clients[k].log && b in clients[k].log
    requires a.timestamp == b.timestamp && a.request == b.request
    ensures a == b
  {
    var log := clients[k].log;
    var i :| 0 <= i < |log| && log[i] == a;
    var j :| 0 <= j < |log| && log[j] == b;
  }

  /** Keys not carried over: the feed and the record hold the same measurements. */
  lemma SameUnseen(w: Wire, base: map<ShardKey, nat>, feed: seq<Item>, carried: set<string>, x: Item)
    requires FedOk(w, base, feed) && CarriedTo(w.clients, base, carried) && KeyOf(x) !in carried
    ensures x in feed <==> x in w.work.log
  {
    if x.0 in w.clients {
      assert ShardFed(w.work, x.0, w.clients[x.0], base[x.0], feed);
      assert x == (x.0, x.1);
    }
  }

  /** Over every schedule of pushes, losses and retries, for any run, its sidecars
      freshly deployed or left in mid-stream by an earlier one: if no cluster
      name holds a bar and no shard repeats a request within a second, each
      cluster's tally is exactly its share of the permanent record, less the
      measurements whose keys earlier runs left behind. */
  lemma TallyMatchesRecord(w: Wire, base: map<ShardKey, nat>, carried: set<string>, steps: seq<Step>, w': Wire, feed: seq<Item>, c: string)
    requires Begins(w, base, carried) && Watched(w, [], steps, w', feed)
    requires OncePerSecond(w'.clients) && NoBars(w'.clients)
    ensures var tally := TallyOf(Firsts(Filter(feed, Unseen(carried))), c);
            && tally == TallyOf(Filter(w'.work.log, Unseen(carried)), c)
            && tally.samples + Samples(Filter(w'.work.log, Seen(carried)), c) == Samples(w'.work.log, c)
            && tally.failed + Failures(Filter(w'.work.log, Seen(carried)), c) == Failures(w'.work.log, c)
  {
    WatchedFed(w, base, [], steps, w', feed);
    StillCarried(w, base, carried, w');
    RecordDistinct(w', base, feed);
    RecordSeparate(w', base, feed);
    forall x | KeyOf(x) !in carried ensures x in feed <==> x in w'.work.log {
      SameUnseen(w', base, feed, carried, x);
    }
    FreshItemsMatch(feed, w'.work.log, carried);
    SameTally(Firsts(Filter(feed, Unseen(carried))), Filter(w'.work.log, Unseen(carried)), c);
    TallySplits(w'.work.log, carried, c);
  }

  lemma StillCarried(w: Wire, base: map<ShardKey, nat>, carried: set<string>, w': Wire)
    requires Begins(w, base, carried) && base.Keys == w'.clients.Keys && ClientSide(w')
    requires forall k :: k in w.clients ==> k in w'.clients && w.clients[k].log <= w'.clients[k].log
    ensures CarriedTo(w'.clients, base, carried)
  {
    forall k, iv | k in w'.clients && iv in w'.clients[k].log && iv.seqNo <= base[k] ensures KeyOf((k, iv)) in carried {
      assert ShardFed(w.work, k, w.clients[k], base[k], []);
      GrownMember(w.clients[k].log, w'.clients[k].log, iv);
    }
  }

  function Seen(carried: set<string>): Item -> bool
  {
    (x: Item) => KeyOf(x) in carried
  }

  lemma {:induction false} TallySplits(log: seq<Item>, carried: set<string>, c: string)
    ensures Samples(Filter(log, Unseen(carried)), c) + Samples(Filter(log, Seen(carried)), c) == Samples(log, c)
    ensures Failures(Filter(log, Unseen(carried)), c) + Failures(Filter(log, Seen(carried)), c) == Failures(log, c)
  {
    if log != [] {
      var n := |log| - 1;
      var before, x := log[..n], log[n];
      assert log == before + [x];
      TallySplits(before, carried, c);
      UnseenSnoc(carried, before, x);
      FilterConcat(before, [x], Seen(carried));
      assert Filter([x], Seen(carried)) == if KeyOf(x) in carried then [x] else [];
      TallySnoc(before, x, c);
      if KeyOf(x) in carried {
        TallySnoc(Filter(before, Seen(carried)), x, c);
        assert Filter(before, Unseen(carried)) + [] == Filter(before, Unseen(carried));
      } else {
        TallySnoc(Filter(before, Unseen(carried)), x, c);
        assert Filter(before, Seen(carried)) + [] == Filter(before, Seen(carried));
      }
    }
  }

  lemma FreshItemsMatch(feed: seq<Item>, log: seq<Item>, carried: set<string>)
    requires (forall x :: KeyOf(x) !in carried ==> (x in feed <==> x in log)) && Distinct(log) && KeysSeparate(log)
    ensures multiset(Firsts(Filter(feed, Unseen(carried)))) == multiset(Filter(log, Unseen(carried)))
  {
    var fed := Filter(feed, Unseen(carried));
    FirstsAreTheItems(fed);
    forall x ensures multiset(Firsts(fed))[x] == multiset(Filter(log, Unseen(carried)))[x] {
      CountDistinct(Firsts(fed), x);
      CountDistinct(log, x);
      FilterOccurs(log, Unseen(carried), x);
    }
  }

  // ------------------------------------------------------------------
  // It does fall short.

  /** One sidecar with one interval to send, and nothing acknowledged. */
  ghost predicate OneToSend(w: Wire, k: ShardKey, iv: Interval)
  {
    && w.runId > 0 && k.scenarioId > 0 && iv.seqNo == 1
    && ClientSide(w) && w.work == Empty && w.waiting == map[]
    && k in w.clients && w.clients[k].log == [iv] && w.clients[k].acked == 0 && !w.clients[k].finalSent
  }

  /** The interval is pushed and absorbed, and the answer is lost. */
  lemma AnswerLost(w: Wire, k: ShardKey, iv: Interval) returns (steps: seq<Step>, w': Wire)
    requires OneToSend(w, k, iv)
    ensures Watched(w, [], steps, w', [(k, iv)])
    ensures w'.work.log == [(k, iv)] && w'.clients == w.clients && w'.waiting == map[] && ClientSide(w')
  {
    var s1 := Send(k, false, None);
    var w1 := SendsOne(w, k, iv);
    var rest;
    rest, w' := LosesAnswer(w1, |w.sent|, k, iv);
    WatchedCons(w, [], s1, w1, [], rest, w', [(k, iv)]);
    steps := [s1] + rest;
  }

  lemma SendsOne(w: Wire, k: ShardKey, iv: Interval) returns (w1: Wire)
    requires OneToSend(w, k, iv)
    ensures Enabled(w, Send(k, false, None)) && w1 == After(w, Send(k, false, None)) && ClientSide(w1)
    ensures w1.runId == w.runId && w1.work == Empty && w1.clients == w.clients && w1.waiting == map[k := |w.sent|]
    ensures |w.sent| < |w1.sent| && w1.sent[|w.sent|].batch.key == k && w1.sent[|w.sent|].batch.intervals == [iv]
  {
    w1 := After(w, Send(k, false, None));
    SendKept(w, k, false, None);
    assert w.clients[k := w.clients[k]] == w.clients;
  }

  lemma LosesAnswer(w: Wire, i: nat, k: ShardKey, iv: Interval) returns (steps: seq<Step>, w': Wire)
    requires ClientSide(w) && w.runId > 0 && w.work == Empty && i < |w.sent| && k.scenarioId > 0 && iv.seqNo == 1
    requires w.sent[i].batch.key == k && w.sent[i].batch.intervals == [iv] && w.waiting == map[k := i]
    ensures Watched(w, [], steps, w', [(k, iv)])
    ensures w'.work.log == [(k, iv)] && w'.clients == w.clients && w'.waiting == map[] && ClientSide(w')
  {
    var fed := [(k, iv)];
    AbsorbsOne(w, i, k, iv);
    var w2 := After(w, Deliver(i));
    ClientSideKept(w, Deliver(i));
    w' := After(w2, GiveUp(k));
    ClientSideKept(w2, GiveUp(k));
    WatchedCons(w2, fed, GiveUp(k), w', fed, [], w', fed);
    WatchedCons(w, [], Deliver(i), w2, fed, [GiveUp(k)] + [], w', fed);
    steps := [Deliver(i)] + ([GiveUp(k)] + []);
  }

  lemma AbsorbsOne(w: Wire, i: nat, k: ShardKey, iv: Interval)
    requires ClientSide(w) && w.runId > 0 && w.work == Empty && i < |w.sent| && k.scenarioId > 0 && iv.seqNo == 1
    requires w.sent[i].batch.key == k && w.sent[i].batch.intervals == [iv]
    ensures After(w, Deliver(i)).work.log == [(k, iv)] && FedAfter(w, [], Deliver(i)) == [(k, iv)]
  {
    assert w.sent[i].batch.runId == w.runId;
    assert Fresh([iv], 0) == [iv];
  }

  lemma WatchedCons(w: Wire, feed: seq<Item>, s: Step, w1: Wire, fed: seq<Item>, rest: seq<Step>, w': Wire, feed': seq<Item>)
    requires ClientSide(w) && Enabled(w, s) && w1 == After(w, s) && fed == FedAfter(w, feed, s) && Watched(w1, fed, rest, w', feed')
    ensures Watched(w, feed, [s] + rest, w', feed')
  {
    assert ([s] + rest)[1..] == rest;
  }

  /** A push is absorbed and its answer lost, the run is stopped, and the next run
      of the still deployed pods gets the interval again: its record holds the
      measurement and its tally does not. */
  lemma StoppedRunShortens(k: ShardKey, iv: Interval, stream: string, run: int, next: int)
    returns (w: Wire, before: seq<Step>, w1: Wire, fed: seq<Item>, steps: seq<Step>, w2: Wire, feed: seq<Item>)
    requires k.scenarioId > 0 && iv.seqNo == 1 && iv.samples > 0 && run > 0 && next > 0
    ensures Initial(w) && Watched(w, [], before, w1, fed) && Watched(NextRun(w1, next), [], steps, w2, feed)
    ensures TallyOf(Firsts(Filter(feed, Unseen(Keys(fed)))), k.cluster).samples < TallyOf(w2.work.log, k.cluster).samples
  {
    var x := (k, iv);
    w := Wire(run, map[k := Client(stream, [], 0, false, None)], [], {}, map[], Empty);
    InitialOk(w);
    var read := Consume(k, [iv]);
    var w0 := After(w, read);
    ClientSideKept(w, read);
    fed, feed := [x], [x];
    before, w1 := AnswerLost(w0, k, iv);
    WatchedCons(w, [], read, w0, [], before, w1, fed);
    before := [read] + before;
    RelabelledOk(w1, next);
    steps, w2 := AnswerLost(NextRun(w1, next), k, iv);
    assert x in fed && KeyOf(x) in Keys(fed);
    assert Filter([x], Unseen(Keys(fed))) == [];
    TallySnoc([], x, k.cluster);
    assert [] + [x] == [x];
  }
}
