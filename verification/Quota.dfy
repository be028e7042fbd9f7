/** The quota ledger: engine capacity claimed for bounded windows, admitted
    against a per-tenant, per-cluster ceiling. */
module Quota {
  import opened Common

  const DEFAULT_CEILING := 10

  datatype Reservation = Reservation(
    id: int, tenant: int, cluster: string, engines: int, start: Instant, end: Instant, execution: int)

  /** `running` holds the executions with an open run. */
  datatype Ledger = Ledger(rows: seq<Reservation>, nextId: int, ceilings: map<(int, string), int>, running: set<int>)

  datatype Refusal = EngineCountInvalid | WindowInvalid | OverQuota(used: int, ceiling: int) | StopFailed

  datatype Admission = Admitted(reservation: Reservation) | Refused(why: Refusal)

  function Ceiling(l: Ledger, tenant: int, cluster: string): int
  {
    if (tenant, cluster) in l.ceilings then l.ceilings[(tenant, cluster)] else DEFAULT_CEILING
  }

  function Count(rows: seq<Reservation>): int
  {
    Sum(rows, (r: Reservation) => r.engines)
  }

  predicate InScope(r: Reservation, tenant: int, cluster: string)
  {
    r.tenant == tenant && r.cluster == cluster
  }

  /** Half-open windows: one that ends where the other starts does not overlap it. */
  function Overlaps(tenant: int, cluster: string, start: Instant, end: Instant): Reservation -> bool
  {
    (r: Reservation) => InScope(r, tenant, cluster) && r.start < end && r.end > start
  }

  function InWindow(rows: seq<Reservation>, tenant: int, cluster: string, start: Instant, end: Instant): seq<Reservation>
  {
    Filter(rows, Overlaps(tenant, cluster, start, end))
  }

  /** Declared end passed, execution still running. */
  function Overruns(tenant: int, cluster: string, now: Instant, running: set<int>): Reservation -> bool
  {
    (r: Reservation) => InScope(r, tenant, cluster) && r.end < now && r.execution in running
  }

  function Overrun(l: Ledger, tenant: int, cluster: string, now: Instant): seq<Reservation>
  {
    Filter(l.rows, Overruns(tenant, cluster, now, l.running))
  }

  function Used(l: Ledger, tenant: int, cluster: string, start: Instant, end: Instant, now: Instant): int
  {
    Count(InWindow(l.rows, tenant, cluster, start, end)) + Count(Overrun(l, tenant, cluster, now))
  }

  function Outside(executions: set<int>): Reservation -> bool
  {
    (r: Reservation) => r.execution !in executions
  }

  /** Stopping executions releases their reservations, on every cluster. */
  function Without(l: Ledger, stopped: set<int>): Ledger
  {
    l.(rows := Filter(l.rows, Outside(stopped)), running := l.running - stopped)
  }

  /** Stopping executions when the releases of some of them fail: a stop goes
      through all the same, and their reservations stay. */
  function Stopped(l: Ledger, executions: set<int>, kept: set<int>): Ledger
  {
    l.(rows := Filter(l.rows, Outside(executions - kept)), running := l.running - executions)
  }

  // ------------------------------------------------------------------
  // Counting.

  ghost predicate Positive(rows: seq<Reservation>)
  {
    forall r :: r in rows ==> r.engines > 0
  }

  /** A looser filter counts at least as much. */
  lemma {:induction false} FilterMonotone(rows: seq<Reservation>, p: Reservation -> bool, q: Reservation -> bool)
    requires Positive(rows) && forall r :: p(r) ==> q(r)
    ensures 0 <= Count(Filter(rows, p)) <= Count(Filter(rows, q))
  {
    if rows != [] {
      FilterMonotone(rows[1..], p, q);
      CountFirst(rows, p);
      CountFirst(rows, q);
    }
  }

  lemma CountFirst(rows: seq<Reservation>, p: Reservation -> bool)
    requires rows != []
    ensures Count(Filter(rows, p)) == (if p(rows[0]) then rows[0].engines else 0) + Count(Filter(rows[1..], p))
  {
    if p(rows[0]) {
      assert Filter(rows, p)[1..] == Filter(rows[1..], p);
    } else {
      assert Filter(rows, p) == Filter(rows[1..], p);
    }
  }

  /** Filtering twice is filtering by both. */
  lemma {:induction false} FilterTwice(rows: seq<Reservation>, p: Reservation -> bool, q: Reservation -> bool, both: Reservation -> bool)
    requires forall r :: both(r) <==> p(r) && q(r)
    ensures Filter(Filter(rows, p), q) == Filter(rows, both)
  {
    if rows != [] {
      FilterTwice(rows[1..], p, q, both);
      var rest := Filter(rows[1..], p);
      if p(rows[0]) {
        assert Filter(rows, p) == [rows[0]] + rest;
        assert ([rows[0]] + rest)[1..] == rest;
      } else {
        assert Filter(rows, p) == rest;
        assert Filter(rows, both) == Filter(rows[1..], both);
      }
    }
  }

  /** Dropping what fails `p`, when some row of the filtered part fails it, frees at least that row. */
  lemma {:induction false} DropFrees(rows: seq<Reservation>, q: Reservation -> bool, both: Reservation -> bool, r: Reservation)
    requires Positive(rows) && (forall x :: both(x) ==> q(x)) && r in rows && q(r) && !both(r)
    ensures Count(Filter(rows, both)) + r.engines <= Count(Filter(rows, q))
  {
    CountFirst(rows, both);
    CountFirst(rows, q);
    FilterMonotone(rows[1..], both, q);
    if r != rows[0] {
      DropFrees(rows[1..], q, both, r);
    }
  }

  lemma {:induction false} NoneKept(rows: seq<Reservation>, p: Reservation -> bool)
    requires forall r :: r in rows ==> !p(r)
    ensures Filter(rows, p) == []
  {
    if rows != [] {
      NoneKept(rows[1..], p);
    }
  }

  /** Counting the union and the intersection of two filters counts both. */
  lemma {:induction false} CountOverlap(rows: seq<Reservation>, p: Reservation -> bool, q: Reservation -> bool,
                                        either: Reservation -> bool, both: Reservation -> bool)
    requires forall r :: either(r) <==> p(r) || q(r)
    requires forall r :: both(r) <==> p(r) && q(r)
    ensures Count(Filter(rows, p)) + Count(Filter(rows, q)) == Count(Filter(rows, either)) + Count(Filter(rows, both))
  {
    if rows != [] {
      CountOverlap(rows[1..], p, q, either, both);
      CountFirst(rows, p);
      CountFirst(rows, q);
      CountFirst(rows, either);
      CountFirst(rows, both);
    }
  }

  /** A row that occupies capacity: its window overlaps, or it overruns. */
  function Occupies(tenant: int, cluster: string, start: Instant, end: Instant, now: Instant, running: set<int>): Reservation -> bool
  {
    (r: Reservation) => InScope(r, tenant, cluster)
                        && ((r.start < end && r.end > start) || (r.end < now && r.execution in running))
  }

  /** A row counted on both sides: its execution overruns, and yet its window overlaps the request's. */
  function CountedTwice(tenant: int, cluster: string, start: Instant, end: Instant, now: Instant, running: set<int>): Reservation -> bool
  {
    (r: Reservation) => InScope(r, tenant, cluster) && r.start < end && start < r.end < now && r.execution in running
  }

  /** Used capacity counts every occupied row once, and once more those counted
      on both sides. There are none of those when the request does not start in
      the past, so used capacity is then exact; otherwise it can only over-count. */
  lemma UsedOvercounts(l: Ledger, tenant: int, cluster: string, start: Instant, end: Instant, now: Instant)
    requires Positive(l.rows)
    ensures Used(l, tenant, cluster, start, end, now)
         == Count(Filter(l.rows, Occupies(tenant, cluster, start, end, now, l.running)))
            + Count(Filter(l.rows, CountedTwice(tenant, cluster, start, end, now, l.running)))
    ensures Used(l, tenant, cluster, start, end, now) == Count(Filter(l.rows, Occupies(tenant, cluster, start, end, now, l.running)))
       <==> forall r :: r in l.rows ==> !CountedTwice(tenant, cluster, start, end, now, l.running)(r)
    ensures start >= now ==> forall r :: r in l.rows ==> !CountedTwice(tenant, cluster, start, end, now, l.running)(r)
  {
    var twice := CountedTwice(tenant, cluster, start, end, now, l.running);
    CountOverlap(l.rows, Overlaps(tenant, cluster, start, end), Overruns(tenant, cluster, now, l.running),
      Occupies(tenant, cluster, start, end, now, l.running), twice);
    CountNonNegative(Filter(l.rows, twice));
    if r :| r in l.rows && twice(r) {
      assert r in Filter(l.rows, twice);
    } else {
      NoneKept(l.rows, twice);
    }
  }

  // ------------------------------------------------------------------
  // Reclaim.

  ghost predicate SortedByEnd(rows: seq<Reservation>)
  {
    forall i, j :: 0 <= i < j < |rows| ==> rows[i].end <= rows[j].end
  }

  /** What a reclaim did: the reservations whose executions it stopped, and whether it got through. */
  datatype Reclaim = Reclaim(stopped: seq<Reservation>, ok: bool)

  /** Stop executions in order until enough is freed. An execution that is not
      running, or cannot be stopped, ends the reclaim with an error. */
  function Reclaimed(running: set<int>, sorted: seq<Reservation>, needed: int, stuck: set<int>): (c: Reclaim)
    ensures c.stopped <= sorted
    decreases |sorted|
  {
    if sorted == [] || needed <= 0 then Reclaim([], true)
    else
      var r := sorted[0];
      if r.execution !in running || r.execution in stuck then Reclaim([], false)
      else
        var rest := Reclaimed(running - {r.execution}, sorted[1..], needed - r.engines, stuck);
        Reclaim([r] + rest.stopped, rest.ok)
  }

  ghost predicate DistinctExecutions(rows: seq<Reservation>)
  {
    forall i, j :: 0 <= i < j < |rows| ==> rows[i].execution != rows[j].execution
  }

  function Executions(rows: seq<Reservation>): set<int>
  {
    set r | r in rows :: r.execution
  }

  lemma ExecutionsCons(r: Reservation, rest: seq<Reservation>)
    ensures Executions([r] + rest) == {r.execution} + Executions(rest)
  {
    assert forall x :: x in [r] + rest <==> x == r || x in rest;
    assert r in [r] + rest;
    forall e | e in Executions(rest) ensures e in Executions([r] + rest) {
      var x :| x in rest && x.execution == e;
      assert x in [r] + rest;
    }
  }

  lemma DistinctCons(r: Reservation, rest: seq<Reservation>)
    ensures DistinctExecutions([r] + rest) <==> DistinctExecutions(rest) && r.execution !in Executions(rest)
  {
    var all := [r] + rest;
    assert forall i :: 0 <= i < |rest| ==> all[i + 1] == rest[i];
    assert forall i :: 0 < i < |all| ==> all[i] == rest[i - 1];
    if DistinctExecutions(all) {
      forall x | x in rest ensures x.execution != r.execution {
        var i :| 0 <= i < |rest| && rest[i] == x;
        assert all[0].execution != all[i + 1].execution;
      }
    }
  }

  /** `k` rows are just enough: they free what is needed, or there are no more, and one fewer would not do. */
  ghost predicate JustEnough(sorted: seq<Reservation>, needed: int, k: nat)
  {
    && k <= |sorted|
    && (Count(sorted[..k]) >= needed || k == |sorted|)
    && (k > 0 ==> Count(sorted[..k - 1]) < needed)
  }

  lemma CountCons(r: Reservation, rows: seq<Reservation>)
    ensures Count([r] + rows) == r.engines + Count(rows)
  {
    assert ([r] + rows)[1..] == rows;
  }

  lemma TakeCons(sorted: seq<Reservation>, k: nat)
    requires 0 < k <= |sorted|
    ensures sorted[..k] == [sorted[0]] + sorted[1..][..k - 1]
    ensures Count(sorted[..k]) == sorted[0].engines + Count(sorted[1..][..k - 1])
  {
    assert sorted[..k] == [sorted[0]] + sorted[1..][..k - 1];
    CountCons(sorted[0], sorted[1..][..k - 1]);
  }

  lemma JustEnoughCons(sorted: seq<Reservation>, needed: int, k: nat)
    requires sorted != [] && needed > 0 && 0 < k <= |sorted|
    ensures JustEnough(sorted, needed, k) <==> JustEnough(sorted[1..], needed - sorted[0].engines, k - 1)
  {
    TakeCons(sorted, k);
    if k > 1 {
      TakeCons(sorted, k - 1);
    } else {
      assert sorted[..0] == [];
    }
  }

  /** The executions of `rows` can be stopped one after the other: each allowed, none twice. */
  ghost predicate Stoppable(rows: seq<Reservation>, allowed: set<int>)
  {
    DistinctExecutions(rows) && Executions(rows) <= allowed
  }

  /** The same, one stop after the other: each execution is still running when its turn comes. */
  ghost predicate StopsInTurn(rows: seq<Reservation>, running: set<int>, stuck: set<int>)
    decreases |rows|
  {
    rows == [] || (rows[0].execution in running && rows[0].execution !in stuck
                   && StopsInTurn(rows[1..], running - {rows[0].execution}, stuck))
  }

  lemma {:induction false} StopsInTurnIff(rows: seq<Reservation>, running: set<int>, stuck: set<int>)
    ensures StopsInTurn(rows, running, stuck) <==> Stoppable(rows, running - stuck)
    decreases |rows|
  {
    if rows == [] {
      assert Executions(rows) == {};
    } else {
      var r, rest := rows[0], rows[1..];
      assert rows == [r] + rest;
      StopsInTurnIff(rest, running - {r.execution}, stuck);
      DistinctCons(r, rest);
      ExecutionsCons(r, rest);
    }
  }

  lemma StopsInTurnCons(r: Reservation, rest: seq<Reservation>, running: set<int>, stuck: set<int>)
    ensures StopsInTurn([r] + rest, running, stuck)
       <==> r.execution in running && r.execution !in stuck && StopsInTurn(rest, running - {r.execution}, stuck)
  {
    assert ([r] + rest)[1..] == rest;
  }

  lemma {:induction false} ReclaimedInTurn(running: set<int>, sorted: seq<Reservation>, needed: int, stuck: set<int>)
    ensures StopsInTurn(Reclaimed(running, sorted, needed, stuck).stopped, running, stuck)
    decreases |sorted|
  {
    if sorted != [] && needed > 0 && sorted[0].execution in running && sorted[0].execution !in stuck {
      var r := sorted[0];
      ReclaimedInTurn(running - {r.execution}, sorted[1..], needed - r.engines, stuck);
      StopsInTurnCons(r, Reclaimed(running - {r.execution}, sorted[1..], needed - r.engines, stuck).stopped, running, stuck);
    }
  }

  /** What is stopped: running executions, each once. */
  lemma ReclaimedStoppable(running: set<int>, sorted: seq<Reservation>, needed: int, stuck: set<int>)
    ensures Stoppable(Reclaimed(running, sorted, needed, stuck).stopped, running - stuck)
  {
    ReclaimedInTurn(running, sorted, needed, stuck);
    StopsInTurnIff(Reclaimed(running, sorted, needed, stuck).stopped, running, stuck);
  }

  /** A prefix in end order, and when nothing failed just enough of it. */
  lemma {:induction false} ReclaimedEnough(running: set<int>, sorted: seq<Reservation>, needed: int, stuck: set<int>)
    requires Reclaimed(running, sorted, needed, stuck).ok
    ensures JustEnough(sorted, needed, |Reclaimed(running, sorted, needed, stuck).stopped|)
    decreases |sorted|
  {
    if sorted == [] || needed <= 0 {
      assert Count(sorted[..0]) == 0;
    } else {
      var r := sorted[0];
      ReclaimedEnough(running - {r.execution}, sorted[1..], needed - r.engines, stuck);
      JustEnoughCons(sorted, needed, |Reclaimed(running, sorted, needed, stuck).stopped|);
    }
  }

  lemma EnoughAlready(sorted: seq<Reservation>, needed: int, k: nat)
    requires Positive(sorted) && JustEnough(sorted, needed, k) && needed <= 0
    ensures k == 0
  {
    if k > 0 {
      CountNonNegative(sorted[..k - 1]);
    }
  }

  lemma {:induction false} ReclaimedOkIff(running: set<int>, sorted: seq<Reservation>, needed: int, stuck: set<int>, k: nat)
    requires Positive(sorted) && JustEnough(sorted, needed, k)
    ensures Reclaimed(running, sorted, needed, stuck).ok <==> StopsInTurn(sorted[..k], running, stuck)
    decreases |sorted|
  {
    if sorted == [] {
    } else if needed <= 0 {
      EnoughAlready(sorted, needed, k);
    } else {
      assert Count(sorted[..0]) == 0;
      var r, rest := sorted[0], sorted[1..];
      TakeCons(sorted, k);
      JustEnoughCons(sorted, needed, k);
      ReclaimedOkIff(running - {r.execution}, rest, needed - r.engines, stuck, k - 1);
      StopsInTurnCons(r, rest[..k - 1], running, stuck);
    }
  }

  /** A reclaim fails exactly when the rows it has to stop name some execution
      twice, or one that is not running or cannot be stopped: the second stop of
      the same execution finds it no longer running. */
  lemma ReclaimFailsIff(running: set<int>, sorted: seq<Reservation>, needed: int, stuck: set<int>, k: nat)
    requires Positive(sorted) && JustEnough(sorted, needed, k)
    ensures Reclaimed(running, sorted, needed, stuck).ok <==> Stoppable(sorted[..k], running - stuck)
  {
    ReclaimedOkIff(running, sorted, needed, stuck, k);
    StopsInTurnIff(sorted[..k], running, stuck);
  }

  lemma {:induction false} CountNonNegative(rows: seq<Reservation>)
    requires Positive(rows)
    ensures Count(rows) >= |rows|
  {
    if rows != [] {
      CountNonNegative(rows[1..]);
    }
  }

  // ------------------------------------------------------------------
  // Accounting: what stopping frees.

  lemma WithoutOne(l: Ledger, r: Reservation, tenant: int, cluster: string, start: Instant, end: Instant, now: Instant)
    requires Positive(l.rows) && r in Overrun(l, tenant, cluster, now)
    ensures Used(Without(l, {r.execution}), tenant, cluster, start, end, now) + r.engines
         <= Used(l, tenant, cluster, start, end, now)
  {
    WithoutOverrun(l, r, tenant, cluster, now);
    WithoutWindow(l, {r.execution}, tenant, cluster, start, end);
  }

  lemma WithoutOverrun(l: Ledger, r: Reservation, tenant: int, cluster: string, now: Instant)
    requires Positive(l.rows) && r in Overrun(l, tenant, cluster, now)
    ensures Count(Overrun(Without(l, {r.execution}), tenant, cluster, now)) + r.engines <= Count(Overrun(l, tenant, cluster, now))
  {
    var left := Overruns(tenant, cluster, now, l.running - {r.execution});
    FilterTwice(l.rows, Outside({r.execution}), left, left);
    DropFrees(l.rows, Overruns(tenant, cluster, now, l.running), left, r);
  }

  lemma WithoutWindow(l: Ledger, stopped: set<int>, tenant: int, cluster: string, start: Instant, end: Instant)
    requires Positive(l.rows)
    ensures Count(InWindow(Without(l, stopped).rows, tenant, cluster, start, end)) <= Count(InWindow(l.rows, tenant, cluster, start, end))
  {
    var inside := Overlaps(tenant, cluster, start, end);
    var both := (x: Reservation) => Outside(stopped)(x) && inside(x);
    FilterTwice(l.rows, Outside(stopped), inside, both);
    FilterMonotone(l.rows, both, inside);
  }

  lemma WithoutTwice(l: Ledger, a: set<int>, b: set<int>)
    ensures Without(Without(l, a), b) == Without(l, a + b)
  {
    FilterTwice(l.rows, Outside(a), Outside(b), Outside(a + b));
    assert l.running - a - b == l.running - (a + b);
  }

  lemma WithoutNone(l: Ledger)
    ensures Without(l, {}) == l
  {
    FilterAll(l.rows, Outside({}));
    assert l.running - {} == l.running;
  }

  lemma {:induction false} FilterAll(rows: seq<Reservation>, p: Reservation -> bool)
    requires forall r :: r in rows ==> p(r)
    ensures Filter(rows, p) == rows
  {
    if rows != [] {
      FilterAll(rows[1..], p);
    }
  }

  /** After the stops, the ledger uses at most what it used minus what the stopped rows held. */
  lemma {:induction false} StopsFree(l: Ledger, stopped: seq<Reservation>, tenant: int, cluster: string,
                                     start: Instant, end: Instant, now: Instant)
    requires Positive(l.rows) && DistinctExecutions(stopped)
    requires forall x :: x in stopped ==> x in Overrun(l, tenant, cluster, now)
    ensures Used(Without(l, Executions(stopped)), tenant, cluster, start, end, now)
         <= Used(l, tenant, cluster, start, end, now) - Count(stopped)
    decreases |stopped|
  {
    if stopped == [] {
      assert Executions(stopped) == {};
      WithoutNone(l);
    } else {
      var r, rest := stopped[0], stopped[1..];
      assert stopped == [r] + rest;
      DistinctCons(r, rest);
      ExecutionsCons(r, rest);
      WithoutOne(l, r, tenant, cluster, start, end, now);
      StillOverrun(l, r, rest, tenant, cluster, now);
      StopsFree(Without(l, {r.execution}), rest, tenant, cluster, start, end, now);
      WithoutTwice(l, {r.execution}, Executions(rest));
      CountCons(r, rest);
    }
  }

  lemma StillOverrun(l: Ledger, r: Reservation, rest: seq<Reservation>, tenant: int, cluster: string, now: Instant)
    requires r.execution !in Executions(rest)
    requires forall x :: x in rest ==> x in Overrun(l, tenant, cluster, now)
    ensures forall x :: x in rest ==> x in Overrun(Without(l, {r.execution}), tenant, cluster, now)
  {
    forall x | x in rest ensures x in Overrun(Without(l, {r.execution}), tenant, cluster, now) {
      assert x.execution in Executions(rest);
    }
  }

  // ------------------------------------------------------------------
  // Admission.

  datatype Request = Request(tenant: int, cluster: string, engines: int, start: Instant, end: Instant, execution: int)

  predicate OverCeiling(l: Ledger, q: Request, used: int)
  {
    used + q.engines > Ceiling(l, q.tenant, q.cluster)
  }

  /** The reclaim an admission makes, given the overrunning rows in end order. */
  function ReclaimFor(l: Ledger, q: Request, now: Instant, sorted: seq<Reservation>, stuck: set<int>): (c: Reclaim)
    ensures c.stopped <= sorted
  {
    var used := Used(l, q.tenant, q.cluster, q.start, q.end, now);
    if OverCeiling(l, q, used) && q.start <= now
    then Reclaimed(l.running, sorted, used + q.engines - Ceiling(l, q.tenant, q.cluster), stuck)
    else Reclaim([], true)
  }

  /** What an admission request leaves, and its answer. */
  function Reserved(l: Ledger, q: Request, now: Instant, sorted: seq<Reservation>, stuck: set<int>): (Ledger, Admission)
  {
    if q.engines <= 0 then (l, Refused(EngineCountInvalid))
    else if q.end <= q.start then (l, Refused(WindowInvalid))
    else
      var c := ReclaimFor(l, q, now, sorted, stuck);
      var used := Used(l, q.tenant, q.cluster, q.start, q.end, now) - Count(c.stopped);
      Concluded(Without(l, Executions(c.stopped)), q, used, c.ok)
  }

  /** The same when the releases of the executions in `kept` fail. */
  function ReservedWith(l: Ledger, q: Request, now: Instant, sorted: seq<Reservation>, stuck: set<int>, kept: set<int>): (Ledger, Admission)
  {
    if q.engines <= 0 then (l, Refused(EngineCountInvalid))
    else if q.end <= q.start then (l, Refused(WindowInvalid))
    else
      var c := ReclaimFor(l, q, now, sorted, stuck);
      var used := Used(l, q.tenant, q.cluster, q.start, q.end, now) - Count(c.stopped);
      Concluded(Stopped(l, Executions(c.stopped), kept), q, used, c.ok)
  }

  lemma AllReleased(l: Ledger, q: Request, now: Instant, sorted: seq<Reservation>, stuck: set<int>)
    ensures ReservedWith(l, q, now, sorted, stuck, {}) == Reserved(l, q, now, sorted, stuck)
  {
    var es := Executions(ReclaimFor(l, q, now, sorted, stuck).stopped);
    assert es - {} == es;
  }

  function Concluded(l: Ledger, q: Request, used: int, reclaimed: bool): (Ledger, Admission)
  {
    if !reclaimed then (l, Refused(StopFailed)) else Decided(l, q, used)
  }

  /** The last word: over the ceiling even so, or one more row. */
  function Decided(l: Ledger, q: Request, used: int): (Ledger, Admission)
  {
    if OverCeiling(l, q, used) then (l, Refused(OverQuota(used, Ceiling(l, q.tenant, q.cluster))))
    else
      var r := Reservation(l.nextId, q.tenant, q.cluster, q.engines, q.start, q.end, q.execution);
      (l.(rows := l.rows + [r], nextId := l.nextId + 1), Admitted(r))
  }

  /** An order a reclaim may walk: the overrunning rows, earliest end first. */
  ghost predicate IsOrder(l: Ledger, q: Request, now: Instant, sorted: seq<Reservation>)
  {
    && SortedByEnd(sorted)
    && multiset(sorted) == multiset(Overrun(l, q.tenant, q.cluster, now))
  }

  lemma OrderMembers(l: Ledger, q: Request, now: Instant, sorted: seq<Reservation>)
    requires Positive(l.rows) && IsOrder(l, q, now, sorted)
    ensures Positive(sorted)
    ensures forall x :: x in sorted ==> x in Overrun(l, q.tenant, q.cluster, now)
  {
    forall x | x in sorted
      ensures x in Overrun(l, q.tenant, q.cluster, now) && x.engines > 0
    {
      assert x in multiset(sorted);
    }
  }

  /** Who an admission may cost: running executions with an overrunning
      reservation of the same tenant and cluster, each once, and only a request
      that starts now may cost anyone. */
  lemma ReclaimTargets(l: Ledger, q: Request, now: Instant, sorted: seq<Reservation>, stuck: set<int>)
    requires Positive(l.rows) && IsOrder(l, q, now, sorted)
    ensures var c := ReclaimFor(l, q, now, sorted, stuck);
            && (c.stopped != [] ==> q.start <= now)
            && Stoppable(c.stopped, l.running - stuck)
            && (forall x :: x in c.stopped ==> x in Overrun(l, q.tenant, q.cluster, now))
  {
    ReclaimForStoppable(l, q, now, sorted, stuck);
    var stopped := ReclaimFor(l, q, now, sorted, stuck).stopped;
    PrefixMembers(stopped, sorted);
    forall x | x in stopped ensures x in Overrun(l, q.tenant, q.cluster, now) {
      assert x in multiset(sorted);
    }
  }

  lemma ReclaimForStoppable(l: Ledger, q: Request, now: Instant, sorted: seq<Reservation>, stuck: set<int>)
    ensures var c := ReclaimFor(l, q, now, sorted, stuck);
            (c.stopped != [] ==> q.start <= now) && Stoppable(c.stopped, l.running - stuck)
  {
    var used := Used(l, q.tenant, q.cluster, q.start, q.end, now);
    ReclaimedStoppable(l.running, sorted, used + q.engines - Ceiling(l, q.tenant, q.cluster), stuck);
    StoppableNone(l.running - stuck);
  }

  lemma StoppableNone(allowed: set<int>)
    ensures Stoppable([], allowed)
  {
    assert Executions([]) == {};
  }

  lemma PrefixMembers(a: seq<Reservation>, b: seq<Reservation>)
    requires a <= b
    ensures forall x :: x in a ==> x in b
  {
    assert forall i :: 0 <= i < |a| ==> a[i] == b[i];
  }

  /** Recomputing used capacity after the stops gives at most what was used less what they freed. */
  lemma ReclaimFrees(l: Ledger, q: Request, now: Instant, sorted: seq<Reservation>, stuck: set<int>)
    requires Positive(l.rows) && IsOrder(l, q, now, sorted)
    ensures var c := ReclaimFor(l, q, now, sorted, stuck);
            Used(Without(l, Executions(c.stopped)), q.tenant, q.cluster, q.start, q.end, now)
            <= Used(l, q.tenant, q.cluster, q.start, q.end, now) - Count(c.stopped)
  {
    ReclaimTargets(l, q, now, sorted, stuck);
    StopsFree(l, ReclaimFor(l, q, now, sorted, stuck).stopped, q.tenant, q.cluster, q.start, q.end, now);
  }

  // ------------------------------------------------------------------
  // The guarantee: at every instant, within the ceiling.

  function Covers(tenant: int, cluster: string, t: Instant): Reservation -> bool
  {
    (r: Reservation) => InScope(r, tenant, cluster) && r.start <= t < r.end
  }

  function Covering(rows: seq<Reservation>, tenant: int, cluster: string, t: Instant): seq<Reservation>
  {
    Filter(rows, Covers(tenant, cluster, t))
  }

  ghost predicate WithinCeiling(l: Ledger)
  {
    && Positive(l.rows)
    && forall tenant, cluster, t :: Count(Covering(l.rows, tenant, cluster, t)) <= Ceiling(l, tenant, cluster)
  }

  lemma WithoutKeeps(l: Ledger, stopped: set<int>)
    requires WithinCeiling(l)
    ensures WithinCeiling(Without(l, stopped))
  {
    var l' := Without(l, stopped);
    assert forall r :: r in l'.rows ==> r in l.rows;
    forall tenant, cluster, t ensures Count(Covering(l'.rows, tenant, cluster, t)) <= Ceiling(l', tenant, cluster) {
      CoveringShrinks(l.rows, stopped, tenant, cluster, t);
      assert Count(Covering(l.rows, tenant, cluster, t)) <= Ceiling(l, tenant, cluster) == Ceiling(l', tenant, cluster);
    }
  }

  lemma CoveringShrinks(rows: seq<Reservation>, stopped: set<int>, tenant: int, cluster: string, t: Instant)
    requires Positive(rows)
    ensures Count(Covering(Filter(rows, Outside(stopped)), tenant, cluster, t)) <= Count(Covering(rows, tenant, cluster, t))
  {
    var cover := Covers(tenant, cluster, t);
    var both := (r: Reservation) => Outside(stopped)(r) && cover(r);
    FilterTwice(rows, Outside(stopped), cover, both);
    FilterMonotone(rows, both, cover);
  }

  /** What covers an instant of the request's window is within used less freed,
      even of the rows that are still there: what is freed is at most what overruns. */
  lemma CoveringWithin(l: Ledger, q: Request, now: Instant, sorted: seq<Reservation>, stuck: set<int>, t: Instant)
    requires Positive(l.rows) && IsOrder(l, q, now, sorted) && q.start <= t < q.end
    ensures Count(Covering(l.rows, q.tenant, q.cluster, t))
         <= Used(l, q.tenant, q.cluster, q.start, q.end, now) - Count(ReclaimFor(l, q, now, sorted, stuck).stopped)
  {
    var stopped := ReclaimFor(l, q, now, sorted, stuck).stopped;
    FilterMonotone(l.rows, Covers(q.tenant, q.cluster, t), Overlaps(q.tenant, q.cluster, q.start, q.end));
    OrderMembers(l, q, now, sorted);
    CountPermutes(sorted, Overrun(l, q.tenant, q.cluster, now));
    assert stopped == sorted[..|stopped|];
    CountPrefix(sorted, |stopped|);
  }

  lemma StoppedKeeps(l: Ledger, executions: set<int>, kept: set<int>)
    requires WithinCeiling(l)
    ensures WithinCeiling(Stopped(l, executions, kept))
  {
    WithoutKeeps(l, executions - kept);
    RunningIrrelevant(Without(l, executions - kept), l.running - executions);
    assert Stopped(l, executions, kept) == Without(l, executions - kept).(running := l.running - executions);
  }

  lemma CoveringSnoc(rows: seq<Reservation>, r: Reservation, tenant: int, cluster: string, t: Instant)
    ensures Count(Covering(rows + [r], tenant, cluster, t))
         == Count(Covering(rows, tenant, cluster, t))
            + (if InScope(r, tenant, cluster) && r.start <= t < r.end then r.engines else 0)
  {
    var cover := Covers(tenant, cluster, t);
    FilterConcat(rows, [r], cover);
    SumConcat(Filter(rows, cover), Filter([r], cover), (x: Reservation) => x.engines);
    assert Filter([r], cover) == if cover(r) then [r] else [];
    assert Count([r]) == r.engines;
  }

  lemma AdmitKeeps(l: Ledger, r: Reservation, used: int)
    requires WithinCeiling(l) && r.engines > 0
    requires used + r.engines <= Ceiling(l, r.tenant, r.cluster)
    requires forall t :: r.start <= t < r.end ==> Count(Covering(l.rows, r.tenant, r.cluster, t)) <= used
    ensures WithinCeiling(l.(rows := l.rows + [r], nextId := l.nextId + 1))
  {
    var l' := l.(rows := l.rows + [r], nextId := l.nextId + 1);
    forall tenant, cluster, t ensures Count(Covering(l'.rows, tenant, cluster, t)) <= Ceiling(l', tenant, cluster) {
      CoveringSnoc(l.rows, r, tenant, cluster, t);
      assert Count(Covering(l.rows, tenant, cluster, t)) <= Ceiling(l, tenant, cluster);
    }
  }

  /** An admission keeps the bound, whichever releases failed on the way. */
  lemma ReservedKeeps(l: Ledger, q: Request, now: Instant, sorted: seq<Reservation>, stuck: set<int>, kept: set<int>)
    requires WithinCeiling(l) && IsOrder(l, q, now, sorted)
    ensures WithinCeiling(ReservedWith(l, q, now, sorted, stuck, kept).0)
  {
    if q.engines > 0 && q.end > q.start {
      var c := ReclaimFor(l, q, now, sorted, stuck);
      var es := Executions(c.stopped);
      var l' := Stopped(l, es, kept);
      var used := Used(l, q.tenant, q.cluster, q.start, q.end, now) - Count(c.stopped);
      StoppedKeeps(l, es, kept);
      if c.ok && !OverCeiling(l, q, used) {
        forall t | q.start <= t < q.end ensures Count(Covering(l'.rows, q.tenant, q.cluster, t)) <= used {
          CoveringWithin(l, q, now, sorted, stuck, t);
          CoveringShrinks(l.rows, es - kept, q.tenant, q.cluster, t);
        }
        AdmitKeeps(l', Reservation(l.nextId, q.tenant, q.cluster, q.engines, q.start, q.end, q.execution), used);
      }
    }
  }

  datatype Step =
    | Reserve(request: Request, now: Instant, sorted: seq<Reservation>, stuck: set<int>, kept: set<int>)
    | Release(execution: int)
    | Stop(execution: int, released: bool)
    | OpenRun(execution: int)
    | CloseRun(execution: int)
    | SetCeiling(tenant: int, cluster: string, ceiling: int)

  /** Ceilings are only ever raised; everything else is unrestricted. */
  ghost predicate Enabled(l: Ledger, step: Step)
  {
    match step
    case Reserve(q, now, sorted, stuck, kept) => IsOrder(l, q, now, sorted)
    case SetCeiling(tenant, cluster, ceiling) =>
      ceiling >= if (tenant, cluster) in l.ceilings then l.ceilings[(tenant, cluster)] else 10
    case _ => true
  }

  function After(l: Ledger, step: Step): Ledger
  {
    match step
    case Reserve(q, now, sorted, stuck, kept) => ReservedWith(l, q, now, sorted, stuck, kept).0
    case Release(e) => l.(rows := Without(l, {e}).rows)
    case Stop(e, released) => Stopped(l, {e}, if released then {} else {e})
    case OpenRun(e) => l.(running := l.running + {e})
    case CloseRun(e) => l.(running := l.running - {e})
    case SetCeiling(tenant, cluster, ceiling) => l.(ceilings := l.ceilings[(tenant, cluster) := ceiling])
  }

  lemma RunningIrrelevant(l: Ledger, running: set<int>)
    requires WithinCeiling(l)
    ensures WithinCeiling(l.(running := running))
  {
    forall tenant, cluster, t
      ensures Count(Covering(l.rows, tenant, cluster, t)) <= Ceiling(l.(running := running), tenant, cluster)
    {
      assert Ceiling(l.(running := running), tenant, cluster) == Ceiling(l, tenant, cluster);
    }
  }

  lemma RaiseKeeps(l: Ledger, tenant: int, cluster: string, ceiling: int)
    requires WithinCeiling(l) && ceiling >= Ceiling(l, tenant, cluster)
    ensures WithinCeiling(l.(ceilings := l.ceilings[(tenant, cluster) := ceiling]))
  {
    var l' := l.(ceilings := l.ceilings[(tenant, cluster) := ceiling]);
    forall a, c, t ensures Count(Covering(l'.rows, a, c, t)) <= Ceiling(l', a, c) {
      assert Count(Covering(l.rows, a, c, t)) <= Ceiling(l, a, c) <= Ceiling(l', a, c);
    }
  }

  lemma StepKeeps(l: Ledger, step: Step)
    requires WithinCeiling(l) && Enabled(l, step)
    ensures WithinCeiling(After(l, step))
  {
    match step {
      case Reserve(q, now, sorted, stuck, kept) => ReservedKeeps(l, q, now, sorted, stuck, kept);
      case Release(e) =>
        WithoutKeeps(l, {e});
        RunningIrrelevant(Without(l, {e}), l.running);
        assert After(l, step) == Without(l, {e}).(running := l.running);
      case Stop(e, released) => StoppedKeeps(l, {e}, if released then {} else {e});
      case OpenRun(e) => RunningIrrelevant(l, l.running + {e});
      case CloseRun(e) => RunningIrrelevant(l, l.running - {e});
      case SetCeiling(tenant, cluster, ceiling) => RaiseKeeps(l, tenant, cluster, ceiling);
    }
  }

  ghost predicate Runs(l: Ledger, steps: seq<Step>, l': Ledger)
    decreases |steps|
  {
    if steps == [] then l' == l
    else Enabled(l, steps[0]) && Runs(After(l, steps[0]), steps[1..], l')
  }

  lemma {:induction false} RunsKeep(l: Ledger, steps: seq<Step>, l': Ledger)
    requires WithinCeiling(l) && Runs(l, steps, l')
    ensures WithinCeiling(l')
    decreases |steps|
  {
    if steps != [] {
      StepKeeps(l, steps[0]);
      RunsKeep(After(l, steps[0]), steps[1..], l');
    }
  }

  /** Over every history from an empty ledger, at every instant the engines of a
      tenant's reservations on a cluster that cover it sum to at most the
      ceiling stored for the two, or to at most 10 where none is stored. */
  lemma NeverOverCommitted(l: Ledger, steps: seq<Step>, l': Ledger, tenant: int, cluster: string, t: Instant)
    requires l.rows == [] && (forall k :: k in l.ceilings ==> l.ceilings[k] >= 0) && Runs(l, steps, l')
    ensures var committed := Count(Filter(l'.rows, (r: Reservation) => r.tenant == tenant && r.cluster == cluster && r.start <= t < r.end));
            && ((tenant, cluster) in l'.ceilings ==> committed <= l'.ceilings[(tenant, cluster)])
            && ((tenant, cluster) !in l'.ceilings ==> committed <= 10)
  {
    assert WithinCeiling(l);
    RunsKeep(l, steps, l');
    FilterSame(l'.rows, Covers(tenant, cluster, t),
      (r: Reservation) => r.tenant == tenant && r.cluster == cluster && r.start <= t < r.end);
    assert Count(Covering(l'.rows, tenant, cluster, t)) <= Ceiling(l', tenant, cluster);
  }

  // ------------------------------------------------------------------
  // What a ledger holds, read off its history.

  /** The ledgers a history passes through. */
  ghost predicate History(ls: seq<Ledger>, steps: seq<Step>)
  {
    && |ls| == |steps| + 1
    && forall i :: 0 <= i < |steps| ==> Enabled(ls[i], steps[i]) && ls[i + 1] == After(ls[i], steps[i])
  }

  lemma {:induction false} PassesThrough(l: Ledger, steps: seq<Step>, l': Ledger) returns (ls: seq<Ledger>)
    requires Runs(l, steps, l')
    ensures History(ls, steps) && ls[0] == l && ls[|steps|] == l'
    decreases |steps|
  {
    if steps == [] {
      ls := [l];
    } else {
      var rest := PassesThrough(After(l, steps[0]), steps[1..], l');
      ls := [l] + rest;
      forall i | 0 <= i < |steps| ensures Enabled(ls[i], steps[i]) && ls[i + 1] == After(ls[i], steps[i]) {
        if i > 0 {
          assert steps[1..][i - 1] == steps[i] && rest[i - 1] == ls[i] && rest[i - 1 + 1] == ls[i + 1];
        }
      }
    }
  }

  /** The executions an admission request stops on its way. */
  ghost function StoppedBy(l: Ledger, step: Step): set<int>
    requires step.Reserve?
  {
    if step.request.engines <= 0 || step.request.end <= step.request.start then {}
    else Executions(ReclaimFor(l, step.request, step.now, step.sorted, step.stuck).stopped)
  }

  /** The step frees what the execution holds: a release, or a stop whose release works. */
  ghost predicate Frees(l: Ledger, step: Step, e: int)
  {
    match step
    case Release(x) => x == e
    case Stop(x, released) => x == e && released
    case Reserve(_, _, _, _, kept) => e in StoppedBy(l, step) && e !in kept
    case _ => false
  }

  /** The step ends the execution's run: it closes it or stops it. */
  ghost predicate Ends(l: Ledger, step: Step, e: int)
  {
    match step
    case CloseRun(x) => x == e
    case Stop(x, _) => x == e
    case Reserve(_, _, _, _, _) => e in StoppedBy(l, step)
    case _ => false
  }

  /** The step admits its request as this reservation. */
  ghost predicate Admits(l: Ledger, step: Step, r: Reservation)
  {
    && step.Reserve?
    && ReservedWith(l, step.request, step.now, step.sorted, step.stuck, step.kept).1 == Admitted(r)
    && r == Reservation(l.nextId, step.request.tenant, step.request.cluster, step.request.engines, step.request.start, step.request.end, step.request.execution)
  }

  lemma HeldAfter(l: Ledger, step: Step, r: Reservation)
    ensures r in After(l, step).rows <==> Admits(l, step, r) || (r in l.rows && !Frees(l, step, r.execution))
  {
  }

  lemma RunningAfter(l: Ledger, step: Step, e: int)
    ensures e in After(l, step).running <==> step == OpenRun(e) || (e in l.running && !Ends(l, step, e))
  {
  }

  /** Admitted at step `i` of the history, and not freed since. */
  ghost predicate AdmittedAt(ls: seq<Ledger>, steps: seq<Step>, r: Reservation, i: nat)
    requires History(ls, steps)
  {
    i < |steps| && Admits(ls[i], steps[i], r) && forall j :: i < j < |steps| ==> !Frees(ls[j], steps[j], r.execution)
  }

  /** Over every history from an empty ledger: a reservation is held exactly when
      some step admitted it and no step since freed its execution's. */
  lemma HeldIff(ls: seq<Ledger>, steps: seq<Step>, r: Reservation)
    requires History(ls, steps) && ls[0].rows == []
    ensures r in ls[|steps|].rows <==> exists i: nat :: AdmittedAt(ls, steps, r, i)
  {
    var held := seq(|ls|, i requires 0 <= i < |ls| => r in ls[i].rows);
    var begins := seq(|steps|, i requires 0 <= i < |steps| => Admits(ls[i], steps[i], r));
    var ends := seq(|steps|, i requires 0 <= i < |steps| => Frees(ls[i], steps[i], r.execution));
    forall i | 0 <= i < |steps| ensures held[i + 1] <==> begins[i] || (held[i] && !ends[i]) {
      HeldAfter(ls[i], steps[i], r);
    }
    LatchIff(held, begins, ends);
    forall i: nat ensures AdmittedAt(ls, steps, r, i) <==> LatchedAt(begins, ends, i) {
      assert forall j :: 0 <= j < |steps| ==> ends[j] == Frees(ls[j], steps[j], r.execution);
    }
  }

  /** Opened at step `i` of the history, and neither closed nor stopped since. */
  ghost predicate OpenedAt(ls: seq<Ledger>, steps: seq<Step>, e: int, i: nat)
    requires History(ls, steps)
  {
    i < |steps| && steps[i] == OpenRun(e) && forall j :: i < j < |steps| ==> !Ends(ls[j], steps[j], e)
  }

  /** Over every history in which nothing runs at first: an execution runs exactly
      when it was opened and no step since closed or stopped it. */
  lemma RunningIff(ls: seq<Ledger>, steps: seq<Step>, e: int)
    requires History(ls, steps) && ls[0].running == {}
    ensures e in ls[|steps|].running <==> exists i: nat :: OpenedAt(ls, steps, e, i)
  {
    var up := seq(|ls|, i requires 0 <= i < |ls| => e in ls[i].running);
    var begins := seq(|steps|, i requires 0 <= i < |steps| => steps[i] == OpenRun(e));
    var ends := seq(|steps|, i requires 0 <= i < |steps| => Ends(ls[i], steps[i], e));
    forall i | 0 <= i < |steps| ensures up[i + 1] <==> begins[i] || (up[i] && !ends[i]) {
      RunningAfter(ls[i], steps[i], e);
    }
    LatchIff(up, begins, ends);
    forall i: nat ensures OpenedAt(ls, steps, e, i) <==> LatchedAt(begins, ends, i) {
      assert forall j :: 0 <= j < |steps| ==> ends[j] == Ends(ls[j], steps[j], e);
    }
  }

  // ------------------------------------------------------------------
  // Who is admitted.

  /** A booking for the future is admitted exactly when the occupied reservations
      leave room for it, and costs nobody anything. */
  lemma FutureAdmittedIff(l: Ledger, q: Request, now: Instant, sorted: seq<Reservation>, stuck: set<int>)
    requires Positive(l.rows) && q.engines > 0 && q.end > q.start > now
    ensures var r := Reserved(l, q, now, sorted, stuck);
            var limit := if (q.tenant, q.cluster) in l.ceilings then l.ceilings[(q.tenant, q.cluster)] else 10;
            && (r.1.Admitted? <==>
                  Count(Filter(l.rows, Occupies(q.tenant, q.cluster, q.start, q.end, now, l.running))) + q.engines <= limit)
            && r.0.rows == l.rows + (if r.1.Admitted? then [r.1.reservation] else []) && r.0.running == l.running
            && (r.1.Admitted? ==> r.1.reservation == Reservation(l.nextId, q.tenant, q.cluster, q.engines, q.start, q.end, q.execution))
            && (r.1.Refused? ==> r.1.why.OverQuota? && r.1.why.ceiling == limit)
  {
    UsedOvercounts(l, q.tenant, q.cluster, q.start, q.end, now);
    assert Executions([]) == {};
    WithoutNone(l);
    assert l.rows + [] == l.rows;
  }

  lemma {:induction false} CountPermutes(a: seq<Reservation>, b: seq<Reservation>)
    requires multiset(a) == multiset(b)
    ensures Count(a) == Count(b)
  {
    SumPermutation(a, b, (r: Reservation) => r.engines);
  }

  lemma CountPrefix(rows: seq<Reservation>, k: nat)
    requires Positive(rows) && k <= |rows|
    ensures Count(rows[..k]) <= Count(rows)
  {
    assert rows == rows[..k] + rows[k..];
    SumConcat(rows[..k], rows[k..], (r: Reservation) => r.engines);
    CountNonNegative(rows[k..]);
  }

  lemma {:induction false} SomeJustEnough(sorted: seq<Reservation>, needed: int) returns (k: nat)
    requires Positive(sorted)
    ensures JustEnough(sorted, needed, k)
    decreases |sorted|
  {
    if sorted == [] || needed <= 0 {
      k := 0;
      assert Count(sorted[..0]) == 0;
    } else {
      var n := SomeJustEnough(sorted[1..], needed - sorted[0].engines);
      k := n + 1;
      JustEnoughCons(sorted, needed, k);
    }
  }

  /** A reclaim without a failure frees what is needed, or everything. */
  lemma ReclaimFreesEnough(running: set<int>, sorted: seq<Reservation>, needed: int, stuck: set<int>)
    requires Positive(sorted) && Reclaimed(running, sorted, needed, stuck).ok
    ensures var c := Reclaimed(running, sorted, needed, stuck);
            && 0 <= Count(c.stopped) <= Count(sorted)
            && (Count(c.stopped) >= needed || Count(c.stopped) == Count(sorted))
  {
    ReclaimedEnough(running, sorted, needed, stuck);
    var c := Reclaimed(running, sorted, needed, stuck);
    assert c.stopped == sorted[..|c.stopped|];
    CountPrefix(sorted, |c.stopped|);
    CountNonNegative(sorted[..|c.stopped|]);
    assert sorted[..|sorted|] == sorted;
  }

  /** By how many engines a request would exceed its ceiling. */
  function Excess(l: Ledger, q: Request, now: Instant): int
  {
    Used(l, q.tenant, q.cluster, q.start, q.end, now) + q.engines - Ceiling(l, q.tenant, q.cluster)
  }

  /** A request that starts now is admitted exactly when the window-overlapping
      reservations alone leave room and the overruns it has to reclaim, just
      enough of them in end order, can each be stopped, none named twice. */
  lemma NowAdmittedIff(l: Ledger, q: Request, now: Instant, sorted: seq<Reservation>, stuck: set<int>) returns (k: nat)
    requires Positive(l.rows) && q.engines > 0 && q.end > q.start && q.start <= now && IsOrder(l, q, now, sorted)
    ensures k <= |sorted|
    ensures var limit := if (q.tenant, q.cluster) in l.ceilings then l.ceilings[(q.tenant, q.cluster)] else 10;
            JustEnough(sorted, Count(Filter(l.rows, MeetsWindow(q))) + Count(Filter(l.rows, PastItsEnd(q, now, l.running))) + q.engines - limit, k)
    ensures var limit := if (q.tenant, q.cluster) in l.ceilings then l.ceilings[(q.tenant, q.cluster)] else 10;
            Reserved(l, q, now, sorted, stuck).1.Admitted? <==>
              Count(Filter(l.rows, MeetsWindow(q))) + q.engines <= limit && Stoppable(sorted[..k], l.running - stuck)
  {
    OrderMembers(l, q, now, sorted);
    k := SomeJustEnough(sorted, Excess(l, q, now));
    NowAdmittedAt(l, q, now, sorted, stuck, k);
    RowsSpelledOut(l, q, now);
  }

  lemma RowsSpelledOut(l: Ledger, q: Request, now: Instant)
    ensures InWindow(l.rows, q.tenant, q.cluster, q.start, q.end) == Filter(l.rows, MeetsWindow(q))
    ensures Overrun(l, q.tenant, q.cluster, now) == Filter(l.rows, PastItsEnd(q, now, l.running))
  {
    FilterSame(l.rows, Overlaps(q.tenant, q.cluster, q.start, q.end), MeetsWindow(q));
    FilterSame(l.rows, Overruns(q.tenant, q.cluster, now, l.running), PastItsEnd(q, now, l.running));
  }

  /** Of the request's tenant and cluster, with a half-open window that meets the request's. */
  ghost function MeetsWindow(q: Request): Reservation -> bool
  {
    (r: Reservation) => r.tenant == q.tenant && r.cluster == q.cluster && r.start < q.end && q.start < r.end
  }

  /** Of the request's tenant and cluster, past its declared end, and still running. */
  ghost function PastItsEnd(q: Request, now: Instant, running: set<int>): Reservation -> bool
  {
    (r: Reservation) => r.tenant == q.tenant && r.cluster == q.cluster && r.end < now && r.execution in running
  }

  lemma NowAdmittedAt(l: Ledger, q: Request, now: Instant, sorted: seq<Reservation>, stuck: set<int>, k: nat)
    requires Positive(l.rows) && q.engines > 0 && q.end > q.start && q.start <= now
    requires IsOrder(l, q, now, sorted) && JustEnough(sorted, Excess(l, q, now), k)
    ensures Reserved(l, q, now, sorted, stuck).1.Admitted? <==>
            && Count(InWindow(l.rows, q.tenant, q.cluster, q.start, q.end)) + q.engines <= Ceiling(l, q.tenant, q.cluster)
            && Stoppable(sorted[..k], l.running - stuck)
  {
    AdmittedWhen(l, q, now, sorted, stuck);
    ReclaimForOkIff(l, q, now, sorted, stuck, k);
    if ReclaimFor(l, q, now, sorted, stuck).ok {
      FreedOrNot(l, q, now, sorted, stuck);
    }
  }

  lemma ReclaimForOkIff(l: Ledger, q: Request, now: Instant, sorted: seq<Reservation>, stuck: set<int>, k: nat)
    requires Positive(l.rows) && q.start <= now
    requires IsOrder(l, q, now, sorted) && JustEnough(sorted, Excess(l, q, now), k)
    ensures ReclaimFor(l, q, now, sorted, stuck).ok <==> Stoppable(sorted[..k], l.running - stuck)
  {
    var excess := Excess(l, q, now);
    ReclaimForIs(l, q, now, sorted, stuck);
    OrderMembers(l, q, now, sorted);
    if excess > 0 {
      ReclaimFailsIff(l.running, sorted, excess, stuck, k);
    } else {
      EnoughAlready(sorted, excess, k);
      StoppableNone(l.running - stuck);
      assert sorted[..0] == [];
    }
  }

  lemma ReclaimForIs(l: Ledger, q: Request, now: Instant, sorted: seq<Reservation>, stuck: set<int>)
    requires q.start <= now
    ensures ReclaimFor(l, q, now, sorted, stuck)
         == if Excess(l, q, now) > 0 then Reclaimed(l.running, sorted, Excess(l, q, now), stuck) else Reclaim([], true)
  {
  }

  /** A reclaim without a failure: with room, nothing is stopped; otherwise enough is, or everything. */
  lemma FreedOrNot(l: Ledger, q: Request, now: Instant, sorted: seq<Reservation>, stuck: set<int>)
    requires Positive(l.rows) && q.start <= now && IsOrder(l, q, now, sorted) && ReclaimFor(l, q, now, sorted, stuck).ok
    ensures var stopped := Count(ReclaimFor(l, q, now, sorted, stuck).stopped);
            var overrun := Count(Overrun(l, q.tenant, q.cluster, now));
            && 0 <= stopped <= overrun
            && (Excess(l, q, now) <= 0 ==> stopped == 0)
            && (Excess(l, q, now) > 0 ==> stopped >= Excess(l, q, now) || stopped == overrun)
  {
    ReclaimForIs(l, q, now, sorted, stuck);
    OrderMembers(l, q, now, sorted);
    CountPermutes(sorted, Overrun(l, q.tenant, q.cluster, now));
    CountNonNegative(sorted);
    if Excess(l, q, now) > 0 {
      ReclaimFreesEnough(l.running, sorted, Excess(l, q, now), stuck);
    }
  }

  /** Which refusal a request gets: a count or a window that makes no sense is
      named first, and over quota names the ceiling that was stored. */
  lemma RefusalsNamed(l: Ledger, q: Request, now: Instant, sorted: seq<Reservation>, stuck: set<int>)
    ensures var a := Reserved(l, q, now, sorted, stuck).1;
            && (a == Refused(EngineCountInvalid) <==> q.engines <= 0)
            && (a == Refused(WindowInvalid) <==> q.engines > 0 && q.end <= q.start)
            && (a == Refused(StopFailed) <==> q.engines > 0 && q.start < q.end && !ReclaimFor(l, q, now, sorted, stuck).ok)
            && (a.Refused? && a.why.OverQuota? ==>
                  a.why.ceiling == (if (q.tenant, q.cluster) in l.ceilings then l.ceilings[(q.tenant, q.cluster)] else 10)
                  && a.why.used + q.engines > a.why.ceiling)
  {
  }

  lemma AdmittedWhen(l: Ledger, q: Request, now: Instant, sorted: seq<Reservation>, stuck: set<int>)
    requires q.engines > 0 && q.end > q.start
    ensures var c := ReclaimFor(l, q, now, sorted, stuck);
            && (Reserved(l, q, now, sorted, stuck).1.Admitted? <==>
                  c.ok && Used(l, q.tenant, q.cluster, q.start, q.end, now) - Count(c.stopped) + q.engines <= Ceiling(l, q.tenant, q.cluster))
            && (c.stopped == [] ==> Count(c.stopped) == 0)
  {
    var c := ReclaimFor(l, q, now, sorted, stuck);
    assert Ceiling(Without(l, Executions(c.stopped)), q.tenant, q.cluster) == Ceiling(l, q.tenant, q.cluster);
  }

  // ------------------------------------------------------------------
  // Two overrunning reservations of one execution.

  /** An execution's two runs, one after the other, as the ledger has them: `b` follows `a`. */
  ghost predicate OneAfterTheOther(a: Reservation, b: Reservation)
  {
    && a.tenant == b.tenant && a.cluster == b.cluster && a.execution == b.execution
    && a.engines > 0 && b.engines > 0 && a.start < a.end <= b.start < b.end
  }

  /** A run that ends on its own keeps its reservation, so an execution that
      runs again can own two overrunning rows: reserve, run, reserve, run. */
  lemma TwoOverrunsReached(l: Ledger, a: Reservation, b: Reservation) returns (steps: seq<Step>)
    requires l.rows == [] && l.running == {} && OneAfterTheOther(a, b) && a.id == l.nextId && b.id == l.nextId + 1
    requires a.engines <= Ceiling(l, a.tenant, a.cluster) && b.engines <= Ceiling(l, a.tenant, a.cluster)
    ensures Runs(l, steps, l.(rows := [a, b], nextId := l.nextId + 2, running := {a.execution}))
  {
    var e := a.execution;
    var s1, s2 := Booking(a, a.start), Booking(b, b.start);
    var l1 := l.(rows := [a], nextId := l.nextId + 1);
    FirstBooked(l, a);
    assert l1.running + {e} == {e} && {e} - {e} == {};
    var l2 := l1.(running := {e});
    var l4 := l1.(rows := [a, b], nextId := l.nextId + 2);
    SecondBooked(l1, a, b);
    var l5 := l4.(running := {e});
    assert l4.running + {e} == {e};
    assert Runs(l5, [], l5);
    RunsCons(l4, OpenRun(e), [], l5);
    RunsCons(l1, s2, [OpenRun(e)] + [], l5);
    RunsCons(l2, CloseRun(e), [s2] + ([OpenRun(e)] + []), l5);
    RunsCons(l1, OpenRun(e), [CloseRun(e)] + ([s2] + ([OpenRun(e)] + [])), l5);
    RunsCons(l, s1, [OpenRun(e)] + ([CloseRun(e)] + ([s2] + ([OpenRun(e)] + []))), l5);
    steps := [s1] + ([OpenRun(e)] + ([CloseRun(e)] + ([s2] + ([OpenRun(e)] + []))));
  }

  /** The admission that creates a reservation, with nothing overrunning. */
  function Booking(r: Reservation, now: Instant): Step
  {
    Reserve(Request(r.tenant, r.cluster, r.engines, r.start, r.end, r.execution), now, [], {}, {})
  }

  lemma RunsCons(l: Ledger, s: Step, rest: seq<Step>, l': Ledger)
    requires Enabled(l, s) && Runs(After(l, s), rest, l')
    ensures Runs(l, [s] + rest, l')
  {
    assert ([s] + rest)[1..] == rest;
  }

  lemma FirstBooked(l: Ledger, a: Reservation)
    requires l.rows == [] && a.id == l.nextId && a.engines > 0 && a.start < a.end && a.engines <= Ceiling(l, a.tenant, a.cluster)
    ensures Enabled(l, Booking(a, a.start)) && After(l, Booking(a, a.start)) == l.(rows := [a], nextId := l.nextId + 1)
  {
    assert Filter(l.rows, Outside({})) == [];
    BooksNow(l, a);
  }

  lemma SecondBooked(l: Ledger, a: Reservation, b: Reservation)
    requires l.rows == [a] && l.running == {} && OneAfterTheOther(a, b) && b.id == l.nextId && b.engines <= Ceiling(l, a.tenant, a.cluster)
    ensures Enabled(l, Booking(b, b.start)) && After(l, Booking(b, b.start)) == l.(rows := [a, b], nextId := l.nextId + 1)
  {
    NoneKept(l.rows, Overruns(b.tenant, b.cluster, b.start, l.running));
    NoneKept(l.rows, Overlaps(b.tenant, b.cluster, b.start, b.end));
    BooksNow(l, b);
  }

  /** With nothing in the way, a booking is one more row. */
  lemma BooksNow(l: Ledger, r: Reservation)
    requires r.id == l.nextId && r.engines > 0 && r.start < r.end && r.engines <= Ceiling(l, r.tenant, r.cluster)
    requires Overrun(l, r.tenant, r.cluster, r.start) == [] && InWindow(l.rows, r.tenant, r.cluster, r.start, r.end) == []
    ensures Enabled(l, Booking(r, r.start)) && After(l, Booking(r, r.start)) == l.(rows := l.rows + [r], nextId := l.nextId + 1)
  {
    assert Executions([]) == {};
    WithoutNone(l);
    assert Executions([]) - {} == {};
    assert Stopped(l, {}, {}) == Without(l, {});
  }

  /** Reclaiming both fails, although stopping that one execution frees enough:
      the very same request is admitted when it is made again. */
  lemma SecondStopRefuses(l: Ledger, a: Reservation, b: Reservation, q: Request, now: Instant)
    requires l.rows == [a, b] && l.running == {a.execution} && OneAfterTheOther(a, b)
    requires q.tenant == a.tenant && q.cluster == a.cluster && b.end < now == q.start < q.end
    requires 0 < q.engines <= Ceiling(l, q.tenant, q.cluster) < b.engines + q.engines
    ensures IsOrder(l, q, now, [a, b])
    ensures Reserved(l, q, now, [a, b], {}) == (l.(rows := [], running := {}), Refused(StopFailed))
    ensures Reserved(l.(rows := [], running := {}), q, now, [], {}).1.Admitted?
  {
    var none := l.(rows := [], running := {});
    TwoOverruns(l, a, b, q, now);
    SecondStopFails(a, b, a.engines + b.engines + q.engines - Ceiling(l, q.tenant, q.cluster));
    assert ReclaimFor(l, q, now, [a, b], {}) == Reclaim([a], false);
    assert Executions([a]) == {a.execution};
    assert ReclaimFor(none, q, now, [], {}) == Reclaim([], true);
  }

  lemma TwoOverruns(l: Ledger, a: Reservation, b: Reservation, q: Request, now: Instant)
    requires l.rows == [a, b] && l.running == {a.execution} && OneAfterTheOther(a, b)
    requires q.tenant == a.tenant && q.cluster == a.cluster && b.end < now == q.start < q.end
    ensures Overrun(l, q.tenant, q.cluster, now) == [a, b]
    ensures Used(l, q.tenant, q.cluster, q.start, q.end, now) == a.engines + b.engines
    ensures Without(l, {a.execution}) == l.(rows := [], running := {})
  {
    FilterAll(l.rows, Overruns(q.tenant, q.cluster, now, l.running));
    NoneKept(l.rows, Overlaps(q.tenant, q.cluster, q.start, q.end));
    NoneKept(l.rows, Outside({a.execution}));
    CountPair(a, b);
  }

  lemma CountPair(a: Reservation, b: Reservation)
    ensures Count([a, b]) == a.engines + b.engines
  {
    assert [a] + [b] == [a, b] && [b] + [] == [b];
    CountCons(b, []);
    CountCons(a, [b]);
  }

  lemma SecondStopFails(a: Reservation, b: Reservation, needed: int)
    requires a.execution == b.execution && needed > a.engines > 0
    ensures Reclaimed({a.execution}, [a, b], needed, {}) == Reclaim([a], false)
  {
    assert [a, b][1..] == [b];
    assert Reclaimed({a.execution} - {a.execution}, [b], needed - a.engines, {}) == Reclaim([], false);
  }
}
