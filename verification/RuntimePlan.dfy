/** The records of a runtime plan, shared by the plan compiler, the plan parser,
    the catalog and the supervisor. Strings are byte strings: each char is one byte. */
module RuntimePlanModel {
  import opened DependencyGraph

  datatype Option<+T> = None | Some(value: T) {
    predicate IsFailure() { None? }
    function PropagateFailure<U>(): Option<U>
      requires IsFailure()
    {
      None
    }
    function Extract(): T
      requires !IsFailure()
    {
      value
    }
  }

  datatype Result<+T, +E> = Ok(value: T) | Err(error: E)

  datatype ComponentKind = Display | Window | Shell | Other
  datatype RestartPolicy = Never | OnFailure | Always
  datatype ReadinessMode = Exec | Fd | Mipc | X11Display
  datatype Lifecycle = Background | OnDemand | Manual
  datatype ProvideKind = Role | Interface | Capability

  datatype ProvidePlan = ProvidePlan(kind: ProvideKind, name: string, exclusive: bool, priority: nat)

  datatype WindowPlan = WindowPlan(system: string, display: string, mode: string, title: string,
                                   appId: string, wmClass: string, wmInstance: string)

  datatype PackagePlan = PackagePlan(id: string, name: string, version: string, kind: string)

  datatype ComponentPlan = ComponentPlan(
    id: string, kind: ComponentKind, critical: bool, restart: RestartPolicy,
    readiness: ReadinessMode, readinessTimeoutMs: nat,
    backoffInitialMs: nat, backoffMaxMs: nat, restartLimit: nat,
    lifecycle: Lifecycle, idleTimeoutMs: nat, launchable: bool,
    argv: seq<string>, after: seq<string>, environment: seq<(string, string)>,
    provided: seq<ProvidePlan>, permissions: seq<string>,
    package: PackagePlan, name: string, summary: string, icon: string, window: WindowPlan)

  datatype RolePreference = RolePreference(role: string, providers: seq<string>)

  datatype RuntimePlan = RuntimePlan(
    stopGraceMs: nat, profileId: string, display: string,
    profileEnvironment: seq<(string, string)>, startup: seq<string>,
    rolePreferences: seq<RolePreference>, components: seq<ComponentPlan>)

  const MAX_COMPONENTS := 64

  /** The position of the first component with the given id (a linear search). */
  function IndexOf(cs: seq<ComponentPlan>, id: string): (r: Option<nat>)
    ensures r.Some? ==> r.value < |cs| && cs[r.value].id == id && forall k :: 0 <= k < r.value ==> cs[k].id != id
    ensures r.None? ==> forall k :: 0 <= k < |cs| ==> cs[k].id != id
  {
    if cs == [] then None
    else if cs[0].id == id then Some(0)
    else
      var r := IndexOf(cs[1..], id);
      assert forall k :: 1 <= k < |cs| ==> cs[k] == cs[1..][k-1];
      if r.Some? then Some(r.value + 1) else None
  }

  function Ids(cs: seq<ComponentPlan>): (r: seq<string>)
    ensures |r| == |cs| && forall k :: 0 <= k < |cs| ==> r[k] == cs[k].id
  {
    seq(|cs|, k requires 0 <= k < |cs| => cs[k].id)
  }

  ghost predicate UniqueIds(cs: seq<ComponentPlan>) {
    Distinct(Ids(cs))
  }

  predicate HasCritical(cs: seq<ComponentPlan>) {
    exists k :: 0 <= k < |cs| && cs[k].critical
  }

  /** Every dependency names another component of the plan. */
  ghost predicate DependenciesKnown(cs: seq<ComponentPlan>) {
    forall k :: 0 <= k < |cs| ==> forall d :: d in cs[k].after ==> d in Ids(cs) && d != cs[k].id
  }

  ghost predicate DependenciesDistinct(cs: seq<ComponentPlan>) {
    forall k :: 0 <= k < |cs| ==> Distinct(cs[k].after)
  }

  /** The ordering graph of a plan. */
  ghost function AfterGraph(cs: seq<ComponentPlan>): (g: Graph)
    ensures forall id :: id in g <==> id in Ids(cs)
    ensures UniqueIds(cs) ==> forall k :: 0 <= k < |cs| ==> g[cs[k].id] == cs[k].after
  {
    map id | id in Ids(cs) :: cs[IndexOf(cs, id).value].after
  }

  lemma GraphEntry(cs: seq<ComponentPlan>, c: ComponentPlan)
    requires UniqueIds(cs) && c in cs
    ensures c.id in AfterGraph(cs) && AfterGraph(cs)[c.id] == c.after
  {
    var k :| 0 <= k < |cs| && cs[k] == c;
    assert Ids(cs)[k] == c.id;
  }

  /** The graph depends on which components there are, not on their order. */
  lemma AfterGraphOfSet(a: seq<ComponentPlan>, b: seq<ComponentPlan>)
    requires UniqueIds(a) && UniqueIds(b) && Elements(a) == Elements(b)
    ensures AfterGraph(a) == AfterGraph(b)
  {
    forall id ensures id in AfterGraph(a) ==> id in AfterGraph(b) && AfterGraph(a)[id] == AfterGraph(b)[id] {
      SameEntry(a, b, id);
    }
    forall id ensures id in AfterGraph(b) ==> id in AfterGraph(a) {
      SameEntry(b, a, id);
    }
  }

  lemma SameEntry(a: seq<ComponentPlan>, b: seq<ComponentPlan>, id: string)
    requires UniqueIds(a) && UniqueIds(b) && Elements(a) == Elements(b)
    ensures id in AfterGraph(a) ==> id in AfterGraph(b) && AfterGraph(a)[id] == AfterGraph(b)[id]
  {
    if id in AfterGraph(a) {
      var k :| 0 <= k < |a| && Ids(a)[k] == id;
      assert a[k] in Elements(a);
      GraphEntry(a, a[k]);
      GraphEntry(b, a[k]);
    }
  }
}
