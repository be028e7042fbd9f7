/** Campaign freeze and drain: two separate answers to "who may not run", and
    when they agree. */
module Campaign {
  import opened Common

  datatype Service = Service(project: int, execution: int)

  datatype Campaign = Campaign(id: int, name: string, tenant: int, services: seq<Service>)
  {
    /** The execution registered as a project's readiness test: the first entry wins. */
    function Designated(project: int): Option<int>
    {
      FirstFor(services, project)
    }
  }

  /** Entry `i` is the first of this project. */
  ghost predicate FirstAt(services: seq<Service>, project: int, i: nat)
  {
    && i < |services| && services[i].project == project
    && forall j :: 0 <= j < i ==> services[j].project != project
  }

  function FirstFor(services: seq<Service>, project: int): (r: Option<int>)
    ensures r.Some? ==> Service(project, r.value) in services
    ensures r.None? ==> forall s :: s in services ==> s.project != project
  {
    if services == [] then None
    else if services[0].project == project then Some(services[0].execution)
    else FirstFor(services[1..], project)
  }

  /** A project's designated execution is that of its first entry. */
  lemma {:induction false} FirstWins(services: seq<Service>, project: int, i: nat)
    requires FirstAt(services, project, i)
    ensures FirstFor(services, project) == Some(services[i].execution)
  {
    if i > 0 {
      assert services[0].project != project;
      FirstWins(services[1..], project, i - 1);
    }
  }

  /** A valid campaign has a name and lists a project at most once. */
  ghost predicate ValidCampaign(c: Campaign)
  {
    && c.name != ""
    && forall i, j :: 0 <= i < j < |c.services| ==> c.services[i].project != c.services[j].project
  }

  /** The executions known, with the project each belongs to; their current run; the default cluster's deployments, each with its deploy time. */
  datatype Store = Store(projectOf: map<int, int>, running: set<int>, deployed: map<int, Instant>)

  // ------------------------------------------------------------------
  // Freeze.

  ghost predicate Includes(c: Campaign, project: int)
  {
    c.Designated(project).Some?
  }

  /** Blocked: some active campaign includes the project, and none designates this execution. */
  ghost predicate Frozen(active: seq<Campaign>, project: int, execution: int)
  {
    && (exists i :: 0 <= i < |active| && Includes(active[i], project))
    && (forall i :: 0 <= i < |active| ==> active[i].Designated(project) != Some(execution))
  }

  method IsFrozen(active: seq<Campaign>, project: int, execution: int) returns (blocked: bool, name: string)
    requires forall i :: 0 <= i < |active| ==> ValidCampaign(active[i])
    ensures blocked <==> Frozen(active, project, execution)
    ensures blocked ==> exists i :: 0 <= i < |active| && active[i].name == name && Includes(active[i], project)
                                    && forall j :: 0 <= j < i ==> !Includes(active[j], project)
    ensures !blocked ==> name == ""
  {
    var blocking := "";
    for i := 0 to |active|
      invariant forall j :: 0 <= j < i ==> active[j].Designated(project) != Some(execution)
      invariant blocking != "" <==> exists j :: 0 <= j < i && Includes(active[j], project)
      invariant blocking != "" ==> exists j :: 0 <= j < i && active[j].name == blocking && Includes(active[j], project)
                                               && forall k :: 0 <= k < j ==> !Includes(active[k], project)
    {
      var designated := active[i].Designated(project);
      if designated.Some? {
        if designated.value == execution {
          return false, "";
        }
        if blocking == "" {
          blocking := active[i].name;
        }
        assert Includes(active[i], project);
      }
    }
    blocked, name := blocking != "", blocking;
  }

  /** The verdict does not depend on the order campaigns are listed in. */
  lemma FrozenIgnoresOrder(active: seq<Campaign>, active': seq<Campaign>, project: int, execution: int)
    requires forall c :: c in active <==> c in active'
    ensures Frozen(active, project, execution) <==> Frozen(active', project, execution)
  {
    if Frozen(active, project, execution) {
      FrozenBySet(active, active', project, execution);
    }
    if Frozen(active', project, execution) {
      FrozenBySet(active', active, project, execution);
    }
  }

  lemma FrozenBySet(a: seq<Campaign>, b: seq<Campaign>, project: int, execution: int)
    requires forall c :: c in a <==> c in b
    requires Frozen(a, project, execution)
    ensures Frozen(b, project, execution)
  {
    var i :| 0 <= i < |a| && Includes(a[i], project);
    assert a[i] in b;
    var j :| 0 <= j < |b| && b[j] == a[i];
    forall k | 0 <= k < |b| ensures b[k].Designated(project) != Some(execution) {
      assert b[k] in a;
      var m :| 0 <= m < |a| && a[m] == b[k];
    }
  }

  /** The rule stated first in the source's comment: an execution is exempt only
      if every active campaign that includes its project designates it. The
      code, and the same comment further down, exempt one that any of them
      designates. The two differ exactly when two such campaigns disagree. */
  ghost predicate FrozenAsDocumented(active: seq<Campaign>, project: int, execution: int)
  {
    exists i :: 0 <= i < |active| && Includes(active[i], project) && active[i].Designated(project) != Some(execution)
  }

  lemma DocumentedVsCode(active: seq<Campaign>, project: int, execution: int)
    ensures Frozen(active, project, execution) ==> FrozenAsDocumented(active, project, execution)
    ensures FrozenAsDocumented(active, project, execution) && !Frozen(active, project, execution)
       <==> (exists i :: 0 <= i < |active| && active[i].Designated(project) == Some(execution))
            && (exists j :: 0 <= j < |active| && Includes(active[j], project) && active[j].Designated(project) != Some(execution))
  {
  }

  // ------------------------------------------------------------------
  // Drain.

  /** Deployed, of a participating project, and not one of the campaign's own readiness tests. */
  ghost predicate InScope(c: Campaign, s: Store, execution: int)
  {
    && execution in s.deployed
    && execution in s.projectOf
    && (exists i :: 0 <= i < |c.services| && c.services[i].project == s.projectOf[execution])
    && (forall i :: 0 <= i < |c.services| ==> c.services[i].execution != execution)
  }

  /** The executions a drain of this campaign stops, lowest id first. */
  method InScopeExecutions(c: Campaign, s: Store) returns (out: seq<int>)
    ensures Ascending(out) && forall e :: e in out <==> InScope(c, s, e)
  {
    var designated: set<int>, projects: set<int> := {}, {};
    for i := 0 to |c.services|
      invariant forall e :: e in designated <==> exists k :: 0 <= k < i && c.services[k].execution == e
      invariant forall p :: p in projects <==> exists k :: 0 <= k < i && c.services[k].project == p
    {
      designated := designated + {c.services[i].execution};
      projects := projects + {c.services[i].project};
    }
    var found: seq<int>, todo := [], s.deployed.Items;
    while todo != {}
      invariant todo <= s.deployed.Items
      invariant forall e :: e in found <==> e in s.deployed && (e, s.deployed[e]) !in todo && InScope(c, s, e)
      invariant forall i, j :: 0 <= i < j < |found| ==> found[i] != found[j]
      decreases todo
    {
      var item :| item in todo;
      var e := item.0;
      assert e in s.deployed;
      if e !in designated && e in s.projectOf {
        var p := s.projectOf[e];
        assert p in projects <==> InScope(c, s, e);
        if p in projects {
          found := found + [e];
        }
      }
      todo := todo - {item};
    }
    out := Sort(found);
  }

  /** In the scope of a campaign that can be read. */
  ghost predicate InSomeScope(active: seq<Campaign>, unresolved: set<int>, s: Store, e: int)
  {
    exists i :: 0 <= i < |active| && active[i].id !in unresolved && InScope(active[i], s, e)
  }

  lemma ScopeSnoc(active: seq<Campaign>, i: nat, unresolved: set<int>, s: Store, e: int)
    requires i < |active|
    ensures InSomeScope(active[..i + 1], unresolved, s, e)
       <==> InSomeScope(active[..i], unresolved, s, e) || (active[i].id !in unresolved && InScope(active[i], s, e))
  {
    var before, all := active[..i], active[..i + 1];
    assert forall k :: 0 <= k < i ==> all[k] == before[k];
    assert all[i] == active[i];
  }

  /** What one drain pass stops, campaign after campaign: the running in-scope executions. */
  class Drain {
    var store: Store

    constructor (s: Store)
      ensures store == s
    {
      store := s;
    }

    /** `unresolved` campaigns have a scope that cannot be read, `unstoppable`
        executions fail to stop; the pass goes on without either. */
    method DrainOnce(active: seq<Campaign>, unresolved: set<int>, unstoppable: set<int>) returns (stopped: set<int>)
      modifies this
      ensures forall e :: e in stopped <==> e in old(store).running && e !in unstoppable && InSomeScope(active, unresolved, old(store), e)
      ensures store == old(store).(running := old(store).running - stopped)
    {
      stopped := {};
      ghost var s0 := store;
      assert s0.running - {} == s0.running;
      for i := 0 to |active|
        invariant store == s0.(running := s0.running - stopped)
        invariant forall e :: e in stopped <==> e in s0.running && e !in unstoppable && InSomeScope(active[..i], unresolved, s0, e)
      {
        forall e ensures InSomeScope(active[..i + 1], unresolved, s0, e)
                    <==> InSomeScope(active[..i], unresolved, s0, e) || (active[i].id !in unresolved && InScope(active[i], s0, e)) {
          ScopeSnoc(active, i, unresolved, s0, e);
        }
        if active[i].id in unresolved {
          continue;
        }
        var scope := InScopeExecutions(active[i], store);
        assert forall e :: InScope(active[i], store, e) <==> InScope(active[i], s0, e);
        ghost var before := stopped;
        for k := 0 to |scope|
          invariant store == s0.(running := s0.running - stopped)
          invariant forall e :: e in stopped <==> e in before || (e in s0.running && e !in unstoppable && e in scope[..k])
        {
          if scope[k] in store.running && scope[k] !in unstoppable {
            stopped := stopped + {scope[k]};
            store := store.(running := store.running - {scope[k]});
          }
        }
        assert scope[..|scope|] == scope;
      }
      assert active[..|active|] == active;
    }
  }

  // ------------------------------------------------------------------
  // Agreement.

  /** Checked when a campaign is created or edited: its executions belong to the projects they are registered under. */
  ghost predicate Verified(c: Campaign, s: Store)
  {
    forall i :: 0 <= i < |c.services| ==>
      c.services[i].execution in s.projectOf && s.projectOf[c.services[i].execution] == c.services[i].project
  }

  datatype VerifyError = ExecutionMissing | ExecutionMismatch | ProjectMissing | TenantMismatch

  /** Nothing to object to in this service: its execution belongs to its project, and that to the tenant. */
  ghost predicate ServiceOk(svc: Service, tenant: int, s: Store, tenantOf: map<int, Option<int>>)
  {
    && svc.execution in s.projectOf && s.projectOf[svc.execution] == svc.project
    && svc.project in tenantOf && tenantOf[svc.project] == Some(tenant)
  }

  /** What this error says of a service. */
  ghost predicate Blames(err: VerifyError, svc: Service, tenant: int, s: Store, tenantOf: map<int, Option<int>>)
  {
    var known := svc.execution in s.projectOf;
    var matches := known && s.projectOf[svc.execution] == svc.project;
    match err
    case ExecutionMissing => !known
    case ExecutionMismatch => known && !matches
    case ProjectMissing => matches && svc.project !in tenantOf
    case TenantMismatch => matches && svc.project in tenantOf && tenantOf[svc.project] != Some(tenant)
  }

  /** The checks in order, service by service; the error is the first failing service's. */
  method VerifyServices(c: Campaign, s: Store, tenantOf: map<int, Option<int>>) returns (err: Option<VerifyError>)
    ensures err.None? <==> forall i :: 0 <= i < |c.services| ==> ServiceOk(c.services[i], c.tenant, s, tenantOf)
    ensures err.None? ==> Verified(c, s)
    ensures err.Some? ==> exists i ::
              && 0 <= i < |c.services| && Blames(err.value, c.services[i], c.tenant, s, tenantOf)
              && forall k :: 0 <= k < i ==> ServiceOk(c.services[k], c.tenant, s, tenantOf)
  {
    for i := 0 to |c.services|
      invariant forall k :: 0 <= k < i ==> ServiceOk(c.services[k], c.tenant, s, tenantOf)
    {
      var svc := c.services[i];
      if svc.execution !in s.projectOf {
        return Some(ExecutionMissing);
      }
      if s.projectOf[svc.execution] != svc.project {
        return Some(ExecutionMismatch);
      }
      if svc.project !in tenantOf {
        return Some(ProjectMissing);
      }
      if tenantOf[svc.project] != Some(c.tenant) {
        return Some(TenantMismatch);
      }
    }
    err := None;
  }

  ghost predicate Drains(active: seq<Campaign>, s: Store, e: int)
  {
    exists i :: 0 <= i < |active| && InScope(active[i], s, e)
  }

  lemma IncludesIff(c: Campaign, project: int)
    ensures Includes(c, project) <==> exists i :: 0 <= i < |c.services| && c.services[i].project == project
  {
    if i :| 0 <= i < |c.services| && c.services[i].project == project {
      assert c.services[i] in c.services;
    }
    if Includes(c, project) {
      var svc := Service(project, c.Designated(project).value);
      var i :| 0 <= i < |c.services| && c.services[i] == svc;
    }
  }

  /** For a valid, verified campaign, being one of its readiness tests is being designated for one's own project. */
  lemma DesignatedIff(c: Campaign, s: Store, e: int)
    requires ValidCampaign(c) && Verified(c, s) && e in s.projectOf
    ensures c.Designated(s.projectOf[e]) == Some(e) <==> exists i :: 0 <= i < |c.services| && c.services[i].execution == e
  {
    var p := s.projectOf[e];
    if c.Designated(p) == Some(e) {
      var i :| 0 <= i < |c.services| && c.services[i] == Service(p, e);
    }
    if i :| 0 <= i < |c.services| && c.services[i].execution == e {
      assert c.services[i].project == p;
      assert c.services[i] in c.services;
      var d := c.Designated(p);
      var j :| 0 <= j < |c.services| && c.services[j] == Service(p, d.value);
      assert i == j;
    }
  }

  lemma InScopeIff(c: Campaign, s: Store, e: int)
    requires ValidCampaign(c) && Verified(c, s) && e in s.deployed && e in s.projectOf
    ensures InScope(c, s, e) <==> Includes(c, s.projectOf[e]) && c.Designated(s.projectOf[e]) != Some(e)
  {
    IncludesIff(c, s.projectOf[e]);
    DesignatedIff(c, s, e);
  }

  ghost predicate AllSound(active: seq<Campaign>, s: Store)
  {
    forall i :: 0 <= i < |active| ==> ValidCampaign(active[i]) && Verified(active[i], s)
  }

  /** A deployed execution is drained exactly when the documented freeze rule
      blocks it; so everything the code freezes is drained. */
  lemma FrozenIsDrained(active: seq<Campaign>, s: Store, e: int)
    requires AllSound(active, s) && e in s.deployed && e in s.projectOf
    ensures Drains(active, s, e) <==> FrozenAsDocumented(active, s.projectOf[e], e)
    ensures Frozen(active, s.projectOf[e], e) ==> Drains(active, s, e)
  {
    forall i | 0 <= i < |active|
      ensures InScope(active[i], s, e) <==> Includes(active[i], s.projectOf[e]) && active[i].Designated(s.projectOf[e]) != Some(e)
    {
      InScopeIff(active[i], s, e);
    }
    DocumentedVsCode(active, s.projectOf[e], e);
  }

  /** Freeze and drain agree on a deployed execution exactly when no campaign
      designates it while another that includes its project does not. */
  lemma AgreeIff(active: seq<Campaign>, s: Store, e: int)
    requires AllSound(active, s) && e in s.deployed && e in s.projectOf
    ensures (Frozen(active, s.projectOf[e], e) <==> Drains(active, s, e))
       <==> !((exists i :: 0 <= i < |active| && active[i].Designated(s.projectOf[e]) == Some(e))
              && (exists j :: 0 <= j < |active| && Includes(active[j], s.projectOf[e]) && active[j].Designated(s.projectOf[e]) != Some(e)))
  {
    FrozenIsDrained(active, s, e);
    DocumentedVsCode(active, s.projectOf[e], e);
  }

  /** No project is in two active campaigns. */
  ghost predicate OneCampaignPerProject(active: seq<Campaign>)
  {
    forall i, j, p :: 0 <= i < j < |active| && Includes(active[i], p) ==> !Includes(active[j], p)
  }

  /** When no project is in two active campaigns, freeze and drain agree on every deployed execution. */
  lemma AgreeWhenApart(active: seq<Campaign>, s: Store, e: int)
    requires AllSound(active, s) && OneCampaignPerProject(active) && e in s.deployed && e in s.projectOf
    ensures Frozen(active, s.projectOf[e], e) <==> Drains(active, s, e)
  {
    FrozenIsDrained(active, s, e);
    var p := s.projectOf[e];
    if FrozenAsDocumented(active, p, e) {
      var i :| 0 <= i < |active| && Includes(active[i], p) && active[i].Designated(p) != Some(e);
      forall j | 0 <= j < |active| ensures active[j].Designated(p) != Some(e) {
        if j != i {
          assert !Includes(active[j], p);
        }
      }
    }
  }

  /** One project, two campaigns, two readiness tests: each test may be triggered, and each is drained. */
  lemma TwoCampaignsDisagree(s: Store)
    requires s == Store(map[1 := 7, 2 := 7], {1, 2}, map[1 := 0, 2 := 0])
    ensures var active := [Campaign(1, "a", 9, [Service(7, 1)]), Campaign(2, "b", 9, [Service(7, 2)])];
            && AllSound(active, s)
            && !Frozen(active, 7, 1) && Drains(active, s, 1)
            && !Frozen(active, 7, 2) && Drains(active, s, 2)
  {
    var active := [Campaign(1, "a", 9, [Service(7, 1)]), Campaign(2, "b", 9, [Service(7, 2)])];
    assert active[0].Designated(7) == Some(1) && active[1].Designated(7) == Some(2);
    assert AllSound(active, s);
    FrozenIsDrained(active, s, 1);
    FrozenIsDrained(active, s, 2);
    assert FrozenAsDocumented(active, 7, 1) && FrozenAsDocumented(active, 7, 2);
  }
}
