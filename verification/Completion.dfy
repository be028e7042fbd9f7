/** When is a run complete? The control plane counts finished shards against
    the number its load profile planned; this module relates that count to the
    planned shards themselves. */
module Completion {
  import opened Common
  import opened Progress

  /** One scenario's share of the load profile. A valid entry has at least one engine. */
  datatype Entry = Entry(scenarioId: int, engines: nat)

  type Profile = seq<Entry>

  /** The clusters an execution runs on: its fan-out targets, or its single configured cluster. */
  function Clusters(fanOut: seq<string>, cluster: string): (cs: seq<string>)
    ensures |cs| > 0
    ensures forall c :: c in cs <==> if fanOut == [] then c == cluster else c in fanOut
  {
    if |fanOut| > 0 then fanOut else [cluster]
  }

  function Engines(profile: Profile): int
  {
    Sum(profile, (e: Entry) => e.engines)
  }

  ghost predicate DistinctClusters(cs: seq<string>)
  {
    forall i, j :: 0 <= i < j < |cs| ==> cs[i] != cs[j]
  }

  ghost predicate DistinctScenarios(profile: Profile)
  {
    forall i, j :: 0 <= i < j < |profile| ==> profile[i].scenarioId != profile[j].scenarioId
  }

  ghost predicate ValidProfile(profile: Profile)
  {
    forall i :: 0 <= i < |profile| ==> profile[i].engines > 0
  }

  /** The pods an entry asks for on one cluster, and on several. */
  ghost function Pods(e: Entry, c: string): set<ShardKey>
  {
    set i | 0 <= i < e.engines :: ShardKey(e.scenarioId, c, i)
  }

  ghost function EntryPods(e: Entry, cs: seq<string>): set<ShardKey>
  {
    if cs == [] then {} else Pods(e, cs[0]) + EntryPods(e, cs[1..])
  }

  /** Every planned (scenario, cluster, shard) of an execution. */
  ghost function Planned(profile: Profile, cs: seq<string>): set<ShardKey>
  {
    if profile == [] then {} else EntryPods(profile[0], cs) + Planned(profile[1..], cs)
  }

  lemma {:induction false} PodsCount(e: Entry, c: string)
    ensures |Pods(e, c)| == e.engines
    decreases e.engines
  {
    if e.engines > 0 {
      var fewer := Entry(e.scenarioId, e.engines - 1);
      PodsCount(fewer, c);
      var last := ShardKey(e.scenarioId, c, e.engines - 1);
      assert Pods(e, c) == Pods(fewer, c) + {last};
    } else {
      assert Pods(e, c) == {};
    }
  }

  predicate Asks(e: Entry, k: ShardKey)
  {
    k.scenarioId == e.scenarioId && 0 <= k.shardIndex < e.engines
  }

  lemma {:induction false} EntryPodsMember(e: Entry, cs: seq<string>, k: ShardKey)
    ensures k in EntryPods(e, cs) <==> k.cluster in cs && Asks(e, k)
  {
    if cs != [] {
      EntryPodsMember(e, cs[1..], k);
      assert k.cluster in cs <==> k.cluster == cs[0] || k.cluster in cs[1..];
    }
  }

  /** Membership, spelled out: a planned pod is one some entry asks for, on one of the clusters. */
  lemma {:induction false} PlannedMember(profile: Profile, cs: seq<string>, k: ShardKey)
    ensures k in Planned(profile, cs) <==> k.cluster in cs && exists e :: e in profile && Asks(e, k)
  {
    if profile != [] {
      EntryPodsMember(profile[0], cs, k);
      PlannedMember(profile[1..], cs, k);
      assert forall e :: e in profile <==> e == profile[0] || e in profile[1..];
    }
  }

  lemma PodsApart(e: Entry, cs: seq<string>)
    requires DistinctClusters(cs) && cs != []
    ensures Pods(e, cs[0]) * EntryPods(e, cs[1..]) == {}
  {
    forall k | k in Pods(e, cs[0]) ensures k !in EntryPods(e, cs[1..]) {
      EntryPodsMember(e, cs[1..], k);
    }
  }

  lemma OneMore(a: int, n: int)
    ensures a + a * (n - 1) == a * n
  {
  }

  lemma {:induction false} EntryPodsCount(e: Entry, cs: seq<string>)
    requires DistinctClusters(cs)
    ensures |EntryPods(e, cs)| == e.engines * |cs|
  {
    if cs != [] {
      EntryPodsCount(e, cs[1..]);
      PodsCount(e, cs[0]);
      PodsApart(e, cs);
      CountUnion(Pods(e, cs[0]), EntryPods(e, cs[1..]));
      OneMore(e.engines, |cs|);
    }
  }

  /** An entry shares pods with the rest of the profile exactly when its scenario appears there again. */
  lemma SharesPods(e: Entry, rest: Profile, cs: seq<string>)
    requires ValidProfile([e] + rest) && |cs| > 0
    ensures EntryPods(e, cs) * Planned(rest, cs) == {} <==> forall x :: x in rest ==> x.scenarioId != e.scenarioId
  {
    assert ([e] + rest)[0] == e;
    if x :| x in rest && x.scenarioId == e.scenarioId {
      var k := ShardKey(e.scenarioId, cs[0], 0);
      var j :| 0 <= j < |rest| && rest[j] == x;
      assert ([e] + rest)[j + 1] == x;
      EntryPodsMember(e, cs, k);
      PlannedMember(rest, cs, k);
      assert Asks(x, k);
      assert k in EntryPods(e, cs) * Planned(rest, cs);
    } else {
      forall k | k in EntryPods(e, cs) ensures k !in Planned(rest, cs) {
        EntryPodsMember(e, cs, k);
        PlannedMember(rest, cs, k);
      }
    }
  }

  lemma DistinctCons(e: Entry, rest: Profile)
    ensures DistinctScenarios([e] + rest)
       <==> DistinctScenarios(rest) && forall x :: x in rest ==> x.scenarioId != e.scenarioId
  {
    var p := [e] + rest;
    assert forall j :: 0 <= j < |rest| ==> rest[j] == p[j + 1];
    assert forall j :: 0 < j < |p| ==> p[j] == rest[j - 1];
    if DistinctScenarios(p) {
      forall x | x in rest ensures x.scenarioId != e.scenarioId {
        var j :| 0 <= j < |rest| && rest[j] == x;
        assert p[0].scenarioId != p[j + 1].scenarioId;
      }
    }
  }

  lemma CountUnion<T>(a: set<T>, b: set<T>)
    ensures |a + b| <= |a| + |b|
    ensures |a + b| == |a| + |b| <==> a * b == {}
  {
    assert |a + b| == |a| + |b| - |a * b|;
  }

  /** The planned count is at least the number of planned pods, and equals it
      exactly when no scenario appears twice in the profile. */
  lemma {:induction false} PlannedCount(profile: Profile, cs: seq<string>)
    requires ValidProfile(profile) && DistinctClusters(cs) && |cs| > 0
    ensures |Planned(profile, cs)| <= Engines(profile) * |cs|
    ensures |Planned(profile, cs)| == Engines(profile) * |cs| <==> DistinctScenarios(profile)
  {
    if profile != [] {
      var e, rest := profile[0], profile[1..];
      assert profile == [e] + rest;
      PlannedCount(rest, cs);
      EntryPodsCount(e, cs);
      SharesPods(e, rest, cs);
      DistinctCons(e, rest);
      CountUnion(EntryPods(e, cs), Planned(rest, cs));
      assert (e.engines + Engines(rest)) * |cs| == e.engines * |cs| + Engines(rest) * |cs|;
    }
  }

  // ------------------------------------------------------------------

  /** A listing of a run's shard rows: each row once, in any order. */
  ghost predicate Lists(states: seq<(ShardKey, ShardRow)>, shards: map<ShardKey, ShardRow>)
  {
    && (forall i :: 0 <= i < |states| ==> states[i].0 in shards && shards[states[i].0] == states[i].1)
    && (forall i, j :: 0 <= i < j < |states| ==> states[i].0 != states[j].0)
    && (forall k :: k in shards ==> exists i :: 0 <= i < |states| && states[i].0 == k)
  }

  /** The shards that have finished. */
  function FinishedKeys(shards: map<ShardKey, ShardRow>): set<ShardKey>
  {
    set k | k in shards && shards[k].finished
  }

  ghost function FinishedIn(states: seq<(ShardKey, ShardRow)>): (keys: set<ShardKey>)
    ensures forall k :: k in keys ==> exists i :: 0 <= i < |states| && states[i].0 == k && states[i].1.finished
    ensures forall i :: 0 <= i < |states| && states[i].1.finished ==> states[i].0 in keys
  {
    if states == [] then {}
    else
      var n := |states| - 1;
      FinishedIn(states[..n]) + (if states[n].1.finished then {states[n].0} else {})
  }

  lemma ListingFinishes(states: seq<(ShardKey, ShardRow)>, shards: map<ShardKey, ShardRow>)
    requires Lists(states, shards)
    ensures FinishedIn(states) == FinishedKeys(shards)
  {
    forall k | k in FinishedKeys(shards) ensures k in FinishedIn(states) {
      var i :| 0 <= i < |states| && states[i].0 == k;
    }
  }

  lemma FinishedSnoc(states: seq<(ShardKey, ShardRow)>, i: nat)
    requires i < |states| && forall j :: 0 <= j < i ==> states[j].0 != states[i].0
    ensures |FinishedIn(states[..i + 1])| == |FinishedIn(states[..i])| + if states[i].1.finished then 1 else 0
  {
    assert states[..i + 1][..i] == states[..i];
    assert states[i].0 !in FinishedIn(states[..i]);
  }

  method CountFinished(states: seq<(ShardKey, ShardRow)>, ghost shards: map<ShardKey, ShardRow>) returns (finished: nat)
    requires Lists(states, shards)
    ensures finished == |FinishedKeys(shards)|
  {
    finished := 0;
    for i := 0 to |states|
      invariant finished == |FinishedIn(states[..i])|
    {
      FinishedSnoc(states, i);
      if states[i].1.finished {
        finished := finished + 1;
      }
    }
    assert states[..|states|] == states;
    ListingFinishes(states, shards);
  }

  /** The counting test the control plane runs on every final batch. */
  method AllShardsFinished(states: seq<(ShardKey, ShardRow)>, profile: Profile, fanOut: seq<string>, ghost cluster: string, ghost shards: map<ShardKey, ShardRow>)
    returns (done: bool)
    requires Lists(states, shards)
    ensures done <==> Engines(profile) != 0
                      && |FinishedKeys(shards)| >= Engines(profile) * (if fanOut == [] then 1 else |fanOut|)
    ensures Stored(profile, fanOut) && OnlyPlanned(shards, profile, if fanOut == [] then [cluster] else fanOut) ==>
              (done <==> profile != [] && EveryShardFinished(shards, profile, if fanOut == [] then [cluster] else fanOut))
  {
    var finished := CountFinished(states, shards);
    var planned := 0;
    for i := 0 to |profile|
      invariant planned == Engines(profile[..i])
    {
      SumSnoc(profile, i, (e: Entry) => e.engines);
      planned := planned + profile[i].engines;
    }
    assert profile[..|profile|] == profile;
    if Stored(profile, fanOut) && OnlyPlanned(shards, profile, if fanOut == [] then [cluster] else fanOut) {
      CountMetIff(profile, fanOut, cluster, shards);
    }
    if planned == 0 {
      return false;
    }
    if |fanOut| > 0 {
      planned := planned * |fanOut|;
    }
    done := finished >= planned;
  }

  /** The comparison itself, spelled out. */
  ghost predicate CountMet(profile: Profile, fanOut: seq<string>, shards: map<ShardKey, ShardRow>)
  {
    Engines(profile) != 0 && |FinishedKeys(shards)| >= Engines(profile) * (if fanOut == [] then 1 else |fanOut|)
  }

  /** What the stores give: entries with engines, each scenario once, each target once. */
  ghost predicate Stored(profile: Profile, fanOut: seq<string>)
  {
    && (forall i :: 0 <= i < |profile| ==> profile[i].engines > 0)
    && (forall i, j :: 0 <= i < j < |profile| ==> profile[i].scenarioId != profile[j].scenarioId)
    && (forall i, j :: 0 <= i < j < |fanOut| ==> fanOut[i] != fanOut[j])
  }

  /** On every target, every shard of every entry has said it is done. */
  ghost predicate EveryShardFinished(shards: map<ShardKey, ShardRow>, profile: Profile, targets: seq<string>)
  {
    forall c, j, i :: c in targets && 0 <= j < |profile| && 0 <= i < profile[j].engines ==>
      var k := ShardKey(profile[j].scenarioId, c, i); k in shards && shards[k].finished
  }

  /** No shard pushes but those. */
  ghost predicate OnlyPlanned(shards: map<ShardKey, ShardRow>, profile: Profile, targets: seq<string>)
  {
    forall k :: k in shards ==>
      k.cluster in targets && exists j :: 0 <= j < |profile| && profile[j].scenarioId == k.scenarioId && 0 <= k.shardIndex < profile[j].engines
  }

  /** Every planned shard has said it is done. */
  ghost predicate AllFinished(shards: map<ShardKey, ShardRow>, planned: set<ShardKey>)
  {
    forall k :: k in planned ==> k in shards && shards[k].finished
  }

  lemma SubsetFull<T>(a: set<T>, b: set<T>)
    requires a <= b && |a| >= |b|
    ensures a == b
  {
    assert |b - a| == |b| - |a|;
    assert b == a + (b - a);
  }

  lemma SubsetSmaller<T>(a: set<T>, b: set<T>)
    requires a <= b
    ensures |a| <= |b|
  {
    assert |b - a| == |b| - |a|;
  }

  lemma {:induction false} EnginesPositive(profile: Profile)
    requires ValidProfile(profile)
    ensures Engines(profile) >= |profile|
  {
    if profile != [] {
      EnginesPositive(profile[1..]);
    }
  }

  /** If only planned shards push, the count is met exactly when every planned
      shard on every cluster has finished and the profile names each scenario once. */
  lemma CountingIsCoverage(profile: Profile, fanOut: seq<string>, cluster: string, shards: map<ShardKey, ShardRow>)
    requires ValidProfile(profile) && DistinctClusters(Clusters(fanOut, cluster))
    requires shards.Keys <= Planned(profile, Clusters(fanOut, cluster))
    ensures Engines(profile) != 0 && |FinishedKeys(shards)| >= Engines(profile) * |Clusters(fanOut, cluster)|
       <==> profile != [] && DistinctScenarios(profile) && AllFinished(shards, Planned(profile, Clusters(fanOut, cluster)))
  {
    var cs := Clusters(fanOut, cluster);
    var planned := Planned(profile, cs);
    var finished := FinishedKeys(shards);
    PlannedCount(profile, cs);
    EnginesPositive(profile);
    SubsetSmaller(finished, planned);
    if |finished| >= Engines(profile) * |cs| {
      SubsetFull(finished, planned);
    }
    if AllFinished(shards, planned) {
      assert planned <= finished;
      SubsetSmaller(planned, finished);
    }
  }

  /** A stored load profile names each scenario once, the schema sees to it; so
      the count is met exactly when every shard of every entry has finished on
      every fan-out target, or on the single cluster when there is no fan-out. */
  lemma CountMetIff(profile: Profile, fanOut: seq<string>, cluster: string, shards: map<ShardKey, ShardRow>)
    requires Stored(profile, fanOut) && OnlyPlanned(shards, profile, if fanOut == [] then [cluster] else fanOut)
    ensures CountMet(profile, fanOut, shards)
       <==> profile != [] && EveryShardFinished(shards, profile, if fanOut == [] then [cluster] else fanOut)
  {
    var targets := if fanOut == [] then [cluster] else fanOut;
    assert Clusters(fanOut, cluster) == targets;
    OnlyPlannedKeys(shards, profile, targets);
    CountingIsCoverage(profile, fanOut, cluster, shards);
    EveryShardIff(shards, profile, targets);
  }

  lemma OnlyPlannedKeys(shards: map<ShardKey, ShardRow>, profile: Profile, targets: seq<string>)
    ensures OnlyPlanned(shards, profile, targets) <==> shards.Keys <= Planned(profile, targets)
  {
    forall k | k in shards
      ensures k in Planned(profile, targets) <==>
              k.cluster in targets && exists j :: 0 <= j < |profile| && profile[j].scenarioId == k.scenarioId && 0 <= k.shardIndex < profile[j].engines
    {
      PlannedAt(profile, targets, k);
    }
  }

  lemma PlannedAt(profile: Profile, targets: seq<string>, k: ShardKey)
    ensures k in Planned(profile, targets) <==>
            k.cluster in targets && exists j :: 0 <= j < |profile| && profile[j].scenarioId == k.scenarioId && 0 <= k.shardIndex < profile[j].engines
  {
    PlannedMember(profile, targets, k);
    if e :| e in profile && Asks(e, k) {
      var j :| 0 <= j < |profile| && profile[j] == e;
    }
    if j :| 0 <= j < |profile| && profile[j].scenarioId == k.scenarioId && 0 <= k.shardIndex < profile[j].engines {
      assert profile[j] in profile && Asks(profile[j], k);
    }
  }

  lemma EveryShardIff(shards: map<ShardKey, ShardRow>, profile: Profile, targets: seq<string>)
    ensures EveryShardFinished(shards, profile, targets) <==> AllFinished(shards, Planned(profile, targets))
  {
    if EveryShardFinished(shards, profile, targets) {
      forall k | k in Planned(profile, targets) ensures k in shards && shards[k].finished {
        PlannedAt(profile, targets, k);
        var j :| 0 <= j < |profile| && profile[j].scenarioId == k.scenarioId && 0 <= k.shardIndex < profile[j].engines;
        assert k == ShardKey(profile[j].scenarioId, k.cluster, k.shardIndex);
      }
    }
    if AllFinished(shards, Planned(profile, targets)) {
      forall c, j, i | c in targets && 0 <= j < |profile| && 0 <= i < profile[j].engines
        ensures var k := ShardKey(profile[j].scenarioId, c, i); k in shards && shards[k].finished
      {
        PlannedAt(profile, targets, ShardKey(profile[j].scenarioId, c, i));
      }
    }
  }
}
