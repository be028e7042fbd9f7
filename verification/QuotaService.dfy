/** The quota service: the loops that add up, sort, reclaim and reserve, over
    the ledger they change. */
module QuotaService {
  import opened Common
  import opened Quota

  /** Insert by declared end, after equal ends. */
  method InsertByEnd(rows: seq<Reservation>, r: Reservation) returns (sorted: seq<Reservation>)
    requires SortedByEnd(rows)
    ensures SortedByEnd(sorted) && multiset(sorted) == multiset(rows) + multiset{r}
  {
    var i := |rows|;
    while i > 0 && r.end < rows[i - 1].end
      invariant 0 <= i <= |rows|
      invariant i < |rows| ==> r.end < rows[i].end
    {
      i := i - 1;
    }
    InsertKeepsOrder(rows, r, i);
    InsertKeepsRows(rows, r, i);
    sorted := rows[..i] + [r] + rows[i..];
  }

  lemma InsertKeepsOrder(rows: seq<Reservation>, r: Reservation, i: nat)
    requires SortedByEnd(rows) && i <= |rows|
    requires i > 0 ==> rows[i - 1].end <= r.end
    requires i < |rows| ==> r.end < rows[i].end
    ensures SortedByEnd(rows[..i] + [r] + rows[i..])
  {
    var s := rows[..i] + [r] + rows[i..];
    forall j, k | 0 <= j < k < |s| ensures s[j].end <= s[k].end {
      assert s[j] == if j < i then rows[j] else if j == i then r else rows[j - 1];
      assert s[k] == if k < i then rows[k] else if k == i then r else rows[k - 1];
    }
  }

  lemma InsertKeepsRows(rows: seq<Reservation>, r: Reservation, i: nat)
    requires i <= |rows|
    ensures multiset(rows[..i] + [r] + rows[i..]) == multiset(rows) + multiset{r}
  {
    assert rows == rows[..i] + rows[i..];
  }

  method SortByEnd(rows: seq<Reservation>) returns (sorted: seq<Reservation>)
    ensures SortedByEnd(sorted) && multiset(sorted) == multiset(rows)
  {
    sorted := [];
    for i := 0 to |rows|
      invariant SortedByEnd(sorted) && multiset(sorted) == multiset(rows[..i])
    {
      sorted := InsertByEnd(sorted, rows[i]);
      assert rows[..i + 1] == rows[..i] + [rows[i]];
    }
    assert rows[..|rows|] == rows;
  }

  method TotalEngines(rows: seq<Reservation>) returns (total: int)
    ensures total == Count(rows)
  {
    total := 0;
    for i := 0 to |rows|
      invariant total == Count(rows[..i])
    {
      SumSnoc(rows, i, (r: Reservation) => r.engines);
      total := total + rows[i].engines;
    }
    assert rows[..|rows|] == rows;
  }

  method OverrunReservations(l: Ledger, tenant: int, cluster: string, now: Instant) returns (out: seq<Reservation>)
    ensures out == Overrun(l, tenant, cluster, now)
  {
    out := [];
    for i := 0 to |l.rows|
      invariant out == Filter(l.rows[..i], Overruns(tenant, cluster, now, l.running))
    {
      FilterSnoc(l.rows, i, Overruns(tenant, cluster, now, l.running));
      var r := l.rows[i];
      if InScope(r, tenant, cluster) && r.end < now && r.execution in l.running {
        out := out + [r];
      }
    }
    assert l.rows[..|l.rows|] == l.rows;
  }

  method UsedCapacity(l: Ledger, tenant: int, cluster: string, start: Instant, end: Instant, now: Instant)
    returns (used: int, overrun: seq<Reservation>)
    ensures used == Used(l, tenant, cluster, start, end, now)
    ensures overrun == Overrun(l, tenant, cluster, now)
  {
    used := TotalEngines(InWindow(l.rows, tenant, cluster, start, end));
    overrun := OverrunReservations(l, tenant, cluster, now);
    var more := TotalEngines(overrun);
    used := used + more;
  }

  /** Part way through a reclaim: the executions of the first `i` rows are gone, and their engines counted. */
  ghost predicate StoppedSoFar(l0: Ledger, l: Ledger, order: seq<Reservation>, i: nat, freed: int)
    requires i <= |order|
  {
    l == Without(l0, Executions(order[..i])) && freed == Count(order[..i])
  }

  lemma StopNone(l0: Ledger, order: seq<Reservation>)
    ensures StoppedSoFar(l0, l0, order, 0, 0)
  {
    assert Executions(order[..0]) == {};
    WithoutNone(l0);
  }

  lemma StopNext(l0: Ledger, l1: Ledger, order: seq<Reservation>, i: nat, freed: int)
    requires i < |order| && StoppedSoFar(l0, l1, order, i, freed)
    ensures StoppedSoFar(l0, Without(l1, {order[i].execution}), order, i + 1, freed + order[i].engines)
  {
    WithoutTwice(l0, Executions(order[..i]), {order[i].execution});
    assert order[..i + 1] == order[..i] + [order[i]];
    assert Executions(order[..i + 1]) == Executions(order[..i]) + {order[i].execution} by {
      assert forall x :: x in order[..i + 1] <==> x in order[..i] || x == order[i];
    }
    SumSnoc(order, i, (r: Reservation) => r.engines);
  }

  /** Part way through a fan-out: others' rows are what they were less the stopped ones', then the new rows. */
  ghost predicate Across(l0: Ledger, l: Ledger, stopped: set<int>, added: seq<Reservation>, execution: int)
  {
    && l.rows == Filter(l0.rows, Outside(stopped)) + added
    && l.running == l0.running - stopped && stopped <= l0.running
    && Positive(l.rows)
    && execution !in l0.running
    && forall r :: r in added ==> r.execution == execution
  }

  /** `e` was running past the end of one of its reservations on one of these clusters when that cluster was asked. */
  ghost predicate WasOverrunning(l0: Ledger, e: int, tenant: int, clusters: seq<string>, nows: seq<Instant>)
    requires |nows| == |clusters|
  {
    exists i, r :: 0 <= i < |clusters| && r in l0.rows && r.execution == e
                   && Overruns(tenant, clusters[i], nows[i], l0.running)(r)
  }

  predicate ValidRequest(q: Request)
  {
    q.engines > 0 && q.end > q.start
  }

  /** The executions an admission request stopped. */
  ghost function Cost(l: Ledger, q: Request, now: Instant, sorted: seq<Reservation>, stuck: set<int>): set<int>
  {
    if !ValidRequest(q) then {} else Executions(ReclaimFor(l, q, now, sorted, stuck).stopped)
  }

  lemma CostIsOverruns(l0: Ledger, l1: Ledger, stopped: set<int>, added: seq<Reservation>, q: Request,
                       sorted: seq<Reservation>, stuck: set<int>, clusters: seq<string>, nows: seq<Instant>, i: nat)
    requires Across(l0, l1, stopped, added, q.execution) && |nows| == |clusters| && i < |clusters|
    requires q.cluster == clusters[i] && (ValidRequest(q) ==> IsOrder(l1, q, nows[i], sorted))
    ensures Cost(l1, q, nows[i], sorted, stuck) <= l1.running
    ensures forall e :: e in Cost(l1, q, nows[i], sorted, stuck) ==> WasOverrunning(l0, e, q.tenant, clusters, nows)
  {
    if !ValidRequest(q) {
      return;
    }
    ReclaimTargets(l1, q, nows[i], sorted, stuck);
    var c := ReclaimFor(l1, q, nows[i], sorted, stuck);
    forall e | e in Cost(l1, q, nows[i], sorted, stuck) ensures WasOverrunning(l0, e, q.tenant, clusters, nows) {
      var r :| r in c.stopped && r.execution == e;
      assert r in l1.rows && Overruns(q.tenant, q.cluster, nows[i], l1.running)(r);
      assert r !in added;
      assert r in l0.rows && Overruns(q.tenant, clusters[i], nows[i], l0.running)(r);
    }
  }

  lemma AcrossStops(l0: Ledger, l1: Ledger, stopped: set<int>, more: set<int>, added: seq<Reservation>, execution: int)
    requires Across(l0, l1, stopped, added, execution) && more <= l1.running
    ensures Across(l0, Without(l1, more), stopped + more, added, execution)
    ensures more == {} ==> Without(l1, more) == l1
  {
    FilterConcat(Filter(l0.rows, Outside(stopped)), added, Outside(more));
    FilterTwice(l0.rows, Outside(stopped), Outside(more), Outside(stopped + more));
    FilterAll(added, Outside(more));
    if more == {} {
      WithoutNone(l1);
    }
  }

  lemma AcrossNext(l0: Ledger, l1: Ledger, l2: Ledger, stopped: set<int>, added: seq<Reservation>, q: Request, a: Admission,
                   sorted: seq<Reservation>, stuck: set<int>, clusters: seq<string>, nows: seq<Instant>, i: nat)
    requires Across(l0, l1, stopped, added, q.execution) && |nows| == |clusters| && i < |clusters|
    requires q.cluster == clusters[i] && (ValidRequest(q) ==> IsOrder(l1, q, nows[i], sorted))
    requires (l2, a) == Reserved(l1, q, nows[i], sorted, stuck)
    ensures var more := Cost(l1, q, nows[i], sorted, stuck);
            && Across(l0, l2, stopped + more, if a.Admitted? then added + [a.reservation] else added, q.execution)
            && (forall e :: e in more ==> WasOverrunning(l0, e, q.tenant, clusters, nows))
    ensures a.Admitted? ==> l2.nextId == l1.nextId + 1
    ensures a.Admitted? ==>
              a.reservation == Reservation(l1.nextId, q.tenant, q.cluster, q.engines, q.start, q.end, q.execution)
  {
    var more := Cost(l1, q, nows[i], sorted, stuck);
    CostIsOverruns(l0, l1, stopped, added, q, sorted, stuck, clusters, nows, i);
    AcrossStops(l0, l1, stopped, more, added, q.execution);
    if a.Admitted? {
      AcrossAdmits(l0, Without(l1, more), stopped + more, added, a.reservation);
    }
  }

  lemma AcrossAdmits(l0: Ledger, l: Ledger, stopped: set<int>, added: seq<Reservation>, r: Reservation)
    requires Across(l0, l, stopped, added, r.execution) && r.engines > 0
    ensures Across(l0, l.(rows := l.rows + [r], nextId := l.nextId + 1), stopped, added + [r], r.execution)
  {
    assert l.rows + [r] == Filter(l0.rows, Outside(stopped)) + (added + [r]);
  }

  /** One row per cluster asked so far, in order. */
  ghost predicate OnePerCluster(added: seq<Reservation>, first: int, clusters: seq<string>, like: Reservation)
  {
    && |added| <= |clusters|
    && forall i :: 0 <= i < |added| ==> added[i] == like.(id := first + i, cluster := clusters[i])
  }

  lemma OnePerClusterSnoc(added: seq<Reservation>, first: int, clusters: seq<string>, like: Reservation, r: Reservation)
    requires OnePerCluster(added, first, clusters, like) && |added| < |clusters|
    requires r == like.(id := first + |added|, cluster := clusters[|added|])
    ensures OnePerCluster(added + [r], first, clusters, like)
  {
  }

  /** The same reclaim by position: where it ends when it has come to row `i` with `left` still needed. */
  ghost function ReclaimEnds(running: set<int>, order: seq<Reservation>, i: nat, left: int, stuck: set<int>): (nat, bool)
    requires i <= |order|
    decreases |order| - i
  {
    if i == |order| || left <= 0 then (i, true)
    else if order[i].execution !in running || order[i].execution in stuck then (i, false)
    else ReclaimEnds(running - {order[i].execution}, order, i + 1, left - order[i].engines, stuck)
  }

  lemma {:induction false} EndsAgree(running: set<int>, order: seq<Reservation>, i: nat, left: int, stuck: set<int>)
    requires i <= |order|
    ensures var c := Reclaimed(running, order[i..], left, stuck);
            ReclaimEnds(running, order, i, left, stuck) == (i + |c.stopped|, c.ok)
    decreases |order| - i
  {
    if i < |order| && left > 0 && order[i].execution in running && order[i].execution !in stuck {
      assert order[i..][1..] == order[i + 1..];
      EndsAgree(running - {order[i].execution}, order, i + 1, left - order[i].engines, stuck);
    }
  }

  lemma ReclaimedByPosition(running: set<int>, order: seq<Reservation>, needed: int, stuck: set<int>)
    ensures var end := ReclaimEnds(running, order, 0, needed, stuck);
            end.0 <= |order| && Reclaimed(running, order, needed, stuck) == Reclaim(order[..end.0], end.1)
  {
    assert order[0..] == order;
    EndsAgree(running, order, 0, needed, stuck);
  }

  lemma AcrossReleased(l0: Ledger, l: Ledger, stopped: set<int>, added: seq<Reservation>, execution: int)
    requires Across(l0, l, stopped, added, execution)
    ensures Filter(l.rows, Outside({execution})) == Filter(l0.rows, Outside(stopped + {execution}))
  {
    FilterConcat(Filter(l0.rows, Outside(stopped)), added, Outside({execution}));
    FilterTwice(l0.rows, Outside(stopped), Outside({execution}), Outside(stopped + {execution}));
    NoneKept(added, Outside({execution}));
    assert Filter(l0.rows, Outside(stopped + {execution})) + [] == Filter(l0.rows, Outside(stopped + {execution}));
  }

  /** Stop executions in the given order until enough is freed. */
  method StopInOrder(l0: Ledger, order: seq<Reservation>, needed: int, stuck: set<int>)
    returns (l: Ledger, freed: int, ok: bool)
    ensures var c := Reclaimed(l0.running, order, needed, stuck);
            && ok == c.ok && freed == Count(c.stopped)
            && l == Without(l0, Executions(c.stopped))
  {
    var n;
    l, freed, ok, n := StopUntilFreed(l0, order, needed, stuck);
    ReclaimedByPosition(l0.running, order, needed, stuck);
  }

  method StopUntilFreed(l0: Ledger, order: seq<Reservation>, needed: int, stuck: set<int>)
    returns (l: Ledger, freed: int, ok: bool, n: nat)
    ensures n <= |order| && (n, ok) == ReclaimEnds(l0.running, order, 0, needed, stuck)
    ensures StoppedSoFar(l0, l, order, n, freed)
  {
    l, freed := l0, 0;
    StopNone(l0, order);
    var i := 0;
    while i < |order| && freed < needed
      invariant 0 <= i <= |order|
      invariant StoppedSoFar(l0, l, order, i, freed)
      invariant ReclaimEnds(l.running, order, i, needed - freed, stuck) == ReclaimEnds(l0.running, order, 0, needed, stuck)
      decreases |order| - i
    {
      var r := order[i];
      if r.execution !in l.running || r.execution in stuck {
        return l, freed, false, i;
      }
      StopNext(l0, l, order, i, freed);
      l := Without(l, {r.execution});
      assert StoppedSoFar(l0, l, order, i + 1, freed + r.engines);
      freed := freed + r.engines;
      i := i + 1;
    }
    return l, freed, true, i;
  }

  /** The executions the request's reclaim stops are gone, and `used` is what is left in its window. */
  ghost predicate RoomMade(l0: Ledger, q: Request, now: Instant, sorted: seq<Reservation>, stuck: set<int>, l: Ledger, used: int, ok: bool)
  {
    var c := ReclaimFor(l0, q, now, sorted, stuck);
    && ok == c.ok
    && used == Used(l0, q.tenant, q.cluster, q.start, q.end, now) - Count(c.stopped)
    && l == Without(l0, Executions(c.stopped))
  }

  lemma RoomAsItIs(l0: Ledger, q: Request, now: Instant, sorted: seq<Reservation>, stuck: set<int>, total: int)
    requires total == Used(l0, q.tenant, q.cluster, q.start, q.end, now)
    requires total + q.engines <= Ceiling(l0, q.tenant, q.cluster) || q.start > now
    ensures RoomMade(l0, q, now, sorted, stuck, l0, total, true)
  {
    assert Executions([]) == {};
    WithoutNone(l0);
  }

  lemma RoomByStopping(l0: Ledger, q: Request, now: Instant, sorted: seq<Reservation>, stuck: set<int>, l: Ledger, total: int, freed: int, ok: bool)
    requires total == Used(l0, q.tenant, q.cluster, q.start, q.end, now)
    requires total + q.engines > Ceiling(l0, q.tenant, q.cluster) && q.start <= now
    requires var c := Reclaimed(l0.running, sorted, total + q.engines - Ceiling(l0, q.tenant, q.cluster), stuck);
             ok == c.ok && freed == Count(c.stopped) && l == Without(l0, Executions(c.stopped))
    ensures RoomMade(l0, q, now, sorted, stuck, l, total - freed, ok)
  {
  }

  /** What is used in the request's window, after stopping overrunning
      executions, earliest end first, if the request is over and starts now. */
  method MakeRoom(l0: Ledger, q: Request, now: Instant, stuck: set<int>)
    returns (l: Ledger, used: int, ok: bool, sorted: seq<Reservation>)
    ensures IsOrder(l0, q, now, sorted)
    ensures RoomMade(l0, q, now, sorted, stuck, l, used, ok)
  {
    var total, overrun := UsedCapacity(l0, q.tenant, q.cluster, q.start, q.end, now);
    var order := SortByEnd(overrun);
    sorted := order;
    var ceiling := Ceiling(l0, q.tenant, q.cluster);
    if total + q.engines > ceiling && q.start <= now {
      var freed;
      l, freed, ok := StopInOrder(l0, order, total + q.engines - ceiling, stuck);
      used := total - freed;
      RoomByStopping(l0, q, now, order, stuck, l, total, freed, ok);
    } else {
      l, used, ok := l0, total, true;
      RoomAsItIs(l0, q, now, order, stuck, total);
    }
  }

  /** The admission decision, under the tenant's lock. */
  method Admit(l0: Ledger, q: Request, now: Instant, stuck: set<int>)
    returns (l: Ledger, a: Admission, sorted: seq<Reservation>)
    ensures ValidRequest(q) ==> IsOrder(l0, q, now, sorted)
    ensures (l, a) == Reserved(l0, q, now, sorted, stuck)
  {
    sorted := [];
    if q.engines <= 0 {
      return l0, Refused(EngineCountInvalid), sorted;
    }
    if q.end <= q.start {
      return l0, Refused(WindowInvalid), sorted;
    }
    var room, used, ok, order := MakeRoom(l0, q, now, stuck);
    sorted := order;
    ConcludedIs(l0, q, now, sorted, stuck, room, used, ok);
    if !ok {
      return room, Refused(StopFailed), sorted;
    }
    var decided := Decided(room, q, used);
    l, a := decided.0, decided.1;
  }

  lemma ConcludedIs(l0: Ledger, q: Request, now: Instant, sorted: seq<Reservation>, stuck: set<int>, room: Ledger, used: int, ok: bool)
    requires ValidRequest(q)
    requires RoomMade(l0, q, now, sorted, stuck, room, used, ok)
    ensures Reserved(l0, q, now, sorted, stuck) == Concluded(room, q, used, ok)
  {
  }

  /** What an admission answers, against the ceiling stored or the 10 that stand in for one. */
  ghost predicate AnsweredWithin(l: Ledger, q: Request, now: Instant, a: Admission)
  {
    var limit := if (q.tenant, q.cluster) in l.ceilings then l.ceilings[(q.tenant, q.cluster)] else 10;
    && (a == Refused(EngineCountInvalid) <==> q.engines <= 0)
    && (a == Refused(WindowInvalid) <==> q.engines > 0 && q.end <= q.start)
    && (a.Admitted? ==> Count(Filter(l.rows, MeetsWindow(q))) + q.engines <= limit)
    && (a.Refused? && a.why.OverQuota? ==> a.why.ceiling == limit && a.why.used + q.engines > limit)
    && (q.engines > 0 && q.end > q.start > now ==>
          (a.Admitted? <==> Count(Filter(l.rows, Occupies(q.tenant, q.cluster, q.start, q.end, now, l.running))) + q.engines <= limit))
  }

  lemma AnswerWithin(l: Ledger, q: Request, now: Instant, sorted: seq<Reservation>, stuck: set<int>)
    requires Positive(l.rows) && (ValidRequest(q) ==> IsOrder(l, q, now, sorted))
    ensures AnsweredWithin(l, q, now, Reserved(l, q, now, sorted, stuck).1)
  {
    RefusalsNamed(l, q, now, sorted, stuck);
    if ValidRequest(q) {
      if q.start > now {
        FutureAdmittedIff(l, q, now, sorted, stuck);
        RowsSpelledOut(l, q, now);
        MeetingIsOccupying(l, q, now);
      } else {
        var _ := NowAdmittedIff(l, q, now, sorted, stuck);
      }
    }
  }

  lemma MeetingIsOccupying(l: Ledger, q: Request, now: Instant)
    requires Positive(l.rows)
    ensures Count(Filter(l.rows, MeetsWindow(q))) <= Count(Filter(l.rows, Occupies(q.tenant, q.cluster, q.start, q.end, now, l.running)))
  {
    FilterMonotone(l.rows, MeetsWindow(q), Occupies(q.tenant, q.cluster, q.start, q.end, now, l.running));
  }

  class Service {
    var ledger: Ledger

    constructor (l: Ledger)
      ensures ledger == l
    {
      ledger := l;
    }

    /** Admit a reservation if it fits, reclaiming from overruns when it must start now. */
    method Reserve(q: Request, now: Instant, stuck: set<int>) returns (a: Admission, sorted: seq<Reservation>)
      modifies this
      ensures ValidRequest(q) ==> IsOrder(old(ledger), q, now, sorted)
      ensures (ledger, a) == Reserved(old(ledger), q, now, sorted, stuck)
      ensures Positive(old(ledger).rows) ==> AnsweredWithin(old(ledger), q, now, a)
    {
      ghost var before := ledger;
      ledger, a, sorted := Admit(ledger, q, now, stuck);
      if Positive(before.rows) {
        AnswerWithin(before, q, now, sorted, stuck);
      }
    }

    /** Free everything an execution holds; holding nothing is not an error. */
    method Release(execution: int)
      modifies this
      ensures ledger == old(ledger).(rows := Filter(old(ledger).rows, Outside({execution})))
      ensures forall r :: r in ledger.rows <==> r in old(ledger).rows && r.execution != execution
    {
      ledger := ledger.(rows := Filter(ledger.rows, Outside({execution})));
    }

    /** Reserve on every cluster a trigger loads from, all or nothing. `stopped`
        names the executions force-stopped on the way; nothing else of anyone
        else's changes. */
    method ReserveAcross(tenant: int, clusters: seq<string>, engines: int, start: Instant, end: Instant, execution: int,
                         nows: seq<Instant>, stuck: set<int>)
      returns (ok: bool, ghost stopped: set<int>, ghost added: seq<Reservation>)
      requires |nows| == |clusters| && Positive(ledger.rows) && execution !in ledger.running
      modifies this
      ensures ok ==> ledger.rows == Filter(old(ledger).rows, Outside(stopped)) + added
      ensures ok ==> |added| == |clusters|
      ensures ok ==> OnePerCluster(added, old(ledger).nextId, clusters, Reservation(0, tenant, "", engines, start, end, execution))
      ensures !ok ==> ledger.rows == Filter(old(ledger).rows, Outside(stopped + {execution}))
      ensures !ok ==> forall r :: r in ledger.rows ==> r.execution != execution
      ensures ledger.running == old(ledger).running - stopped && stopped <= old(ledger).running
      ensures forall e :: e in stopped ==> WasOverrunning(old(ledger), e, tenant, clusters, nows)
    {
      ghost var l0 := ledger;
      stopped, added := {}, [];
      WithoutNone(l0);
      for i := 0 to |clusters|
        invariant Across(l0, ledger, stopped, added, execution)
        invariant |added| == i && ledger.nextId == l0.nextId + i
        invariant OnePerCluster(added, l0.nextId, clusters, Reservation(0, tenant, "", engines, start, end, execution))
        invariant forall e :: e in stopped ==> WasOverrunning(l0, e, tenant, clusters, nows)
      {
        ghost var l1 := ledger;
        var q := Request(tenant, clusters[i], engines, start, end, execution);
        var a, sorted := Reserve(q, nows[i], stuck);
        AcrossNext(l0, l1, ledger, stopped, added, q, a, sorted, stuck, clusters, nows, i);
        stopped := stopped + Cost(l1, q, nows[i], sorted, stuck);
        if a.Refused? {
          AcrossReleased(l0, ledger, stopped, added, execution);
          Release(execution);
          return false, stopped, added;
        }
        OnePerClusterSnoc(added, l0.nextId, clusters, Reservation(0, tenant, "", engines, start, end, execution), a.reservation);
        added := added + [a.reservation];
      }
      ok := true;
    }
  }
}
