/** Source documents, from which the plan compiler makes plans: which components it
    accepts, and what a plan says of a document. Both are stated on the documents'
    own words and numbers, without the compiler.

    JSON objects whose keys are free (environments, role preferences) are lists of
    entries in file order. An optional field whose default is empty, false or zero is
    modelled by that default. Strings are the UTF-8 bytes of the document's strings. */
module PlanSource {
  import opened DependencyGraph
  import opened TextOrder
  import opened RuntimePlanModel
  import opened KahnSort
  import opened PlanRecords

  datatype SourceBackoff = SourceBackoff(initialMs: Option<int>, maxMs: Option<int>, limit: Option<int>)

  datatype SourceProvide = SourceProvide(
    role: Option<string>, interface: Option<string>, capability: Option<string>, exclusive: bool, priority: int)

  /** The fields only version 2 has. */
  datatype SourceService = SourceService(
    lifecycle: string, idleTimeoutMs: int, provided: seq<SourceProvide>, permissions: seq<string>, package: PackagePlan,
    metadata: Metadata, launchable: bool, window: WindowPlan)

  datatype SourceComponent = SourceComponent(
    id: string, kind: string, critical: bool, restart: string, readinessMode: string, readinessTimeoutMs: int,
    backoff: SourceBackoff, exec: seq<string>, after: seq<string>, env: seq<(string, string)>,
      service: Option<SourceService>)

  datatype SourceProfile = SourceProfile(
    id: string, display: string, roles: seq<(string, seq<string>)>, startup: seq<string>, env: seq<(string, string)>)

  /** Version 2 exactly when there is a profile. */
  datatype SourceDocument = SourceDocument(stopGraceMs: Option<int>, profile: Option<SourceProfile>,
                                           components: seq<SourceComponent>)

  function Default(v: Option<int>, otherwise: int): int {
    if v.Some? then v.value else otherwise
  }

  // ---- Which components are accepted ----

  ghost predicate Acceptable(c: SourceComponent) {
    && AcceptableHeader(c) && AcceptableLists(c)
    && (c.service.Some? ==> AcceptableService(c.service.value))
  }

  predicate AcceptableHeader(c: SourceComponent) {
    && ValidId(c.id)
    && c.kind in ["display", "window", "shell", "other"] && c.restart in ["never", "on-failure", "always"]
    && (c.readinessMode in ["exec", "fd", "mipc-ready"] || (c.readinessMode == "x11-display" && c.service.Some?))
    && 1 <= c.readinessTimeoutMs <= 300_000
    && 1 <= Default(c.backoff.initialMs, 250) <= 60_000
    && Default(c.backoff.initialMs, 250) <= Default(c.backoff.maxMs, 30_000) <= 300_000
    && 0 <= Default(c.backoff.limit, 8) <= 1000
  }

  ghost predicate AcceptableLists(c: SourceComponent) {
    && 1 <= |c.exec| <= 64 && "/" <= c.exec[0] && (forall a :: a in c.exec ==> TextOk(a, 4096))
    && |c.after| <= 32 && Distinct(c.after) && (forall d :: d in c.after ==> ValidId(d))
    && AcceptableEnvironment(c.env)
  }

  ghost predicate AcceptableEnvironment(env: seq<(string, string)>) {
    |env| <= 64 && DifferentKeys(env) && forall e :: e in env ==> EnvOk(e)
  }

  ghost predicate DifferentKeys<V>(entries: seq<(string, V)>) {
    forall i, j :: 0 <= i < j < |entries| ==> entries[i].0 != entries[j].0
  }

  ghost predicate AcceptableService(s: SourceService) {
    && 0 <= s.idleTimeoutMs <= 3_600_000
    && (s.lifecycle == "on-demand" || s.lifecycle in ["background", "manual"])
    && (if s.lifecycle == "on-demand" then s.idleTimeoutMs >= 100 else s.idleTimeoutMs == 0)
    && |s.provided| <= 32 && (forall p :: p in s.provided ==> AcceptableProvide(p))
    && (forall i, j :: 0 <= i < j < |s.provided| ==> !SameService(s.provided[i], s.provided[j]))
    && |s.permissions| <= 128 && Distinct(s.permissions) && (forall q :: q in s.permissions ==> PermissionOk(q))
    && PackageOk(s.package) && MetadataOk(s.metadata) && WindowOk(s.window)
  }

  /** It declares exactly one service. */
  predicate AcceptableProvide(p: SourceProvide) {
    && 0 <= p.priority <= 1_000_000
    && match (p.role, p.interface, p.capability) {
         case (Some(name), None, None) => ValidId(name)
         case (None, Some(name), None) => ValidId(name)
         case (None, None, Some(name)) => ValidId(name)
         case _ => false
       }
  }

  predicate SameService(a: SourceProvide, b: SourceProvide) {
    a.role == b.role && a.interface == b.interface && a.capability == b.capability
  }

  ghost predicate AcceptableRole(r: (string, seq<string>)) {
    ValidId(r.0) && 1 <= |r.1| <= 64 && Distinct(r.1) && forall s :: s in r.1 ==> ValidId(s)
  }

  ghost predicate AcceptableProfile(p: SourceProfile) {
    && ValidId(p.id) && TextOk(p.display, 63) && AcceptableEnvironment(p.env)
    && |p.roles| <= 64 && DifferentKeys(p.roles)
    && (forall r :: r in p.roles ==> AcceptableRole(r))
    && |p.startup| <= 64 && Distinct(p.startup) && forall s :: s in p.startup ==> ValidId(s)
  }

  // ---- What a plan says of a document ----

  /** The component has the settings the document gives it. */
  ghost predicate Carries(s: SourceComponent, c: ComponentPlan) {
    && CarriesSettings(s, c)
    && c.argv == s.exec && SameIds(s.after, c.after) && SameEntries(s.env, c.environment)
    && (if s.service.Some? then CarriesService(s.service.value, c) else CarriesNoService(c))
  }

  predicate CarriesSettings(s: SourceComponent, c: ComponentPlan) {
    && c.id == s.id && c.critical == s.critical
    && (c.kind == Display <==> s.kind == "display") && (c.kind == Window <==> s.kind == "window")
    && (c.kind == Shell <==> s.kind == "shell") && (c.kind == Other <==> s.kind == "other")
    && (c.restart == Never <==> s.restart == "never") && (c.restart == OnFailure <==> s.restart == "on-failure")
    && (c.restart == Always <==> s.restart == "always")
    && (c.readiness == Exec <==> s.readinessMode == "exec") && (c.readiness == Fd <==> s.readinessMode == "fd")
    && (c.readiness == Mipc <==> s.readinessMode == "mipc-ready")
    && (c.readiness == X11Display <==> s.readinessMode == "x11-display")
    && c.readinessTimeoutMs == s.readinessTimeoutMs
    && c.backoffInitialMs == Default(s.backoff.initialMs, 250)
    && c.backoffMaxMs == Default(s.backoff.maxMs, 30_000)
    && c.restartLimit == Default(s.backoff.limit, 8)
  }

  /** The same ones, in increasing order. */
  ghost predicate SameIds(given: seq<string>, sorted: seq<string>) {
    Elements(sorted) == Elements(given) && Increasing(sorted)
  }

  /** The same entries, in the order of their keys. */
  ghost predicate SameEntries<V>(given: seq<(string, V)>, sorted: seq<(string, V)>) {
    && Elements(sorted) == Elements(given)
    && forall i, j :: 0 <= i < j < |sorted| ==> Before(sorted[i].0, sorted[j].0)
  }

  ghost predicate CarriesService(s: SourceService, c: ComponentPlan) {
    && (c.lifecycle == Background <==> s.lifecycle == "background")
    && (c.lifecycle == OnDemand <==> s.lifecycle == "on-demand")
    && (c.lifecycle == Manual <==> s.lifecycle == "manual")
    && c.idleTimeoutMs == s.idleTimeoutMs && c.launchable == s.launchable
    && |c.provided| == |s.provided|
    && (forall k :: 0 <= k < |c.provided| ==> CarriesProvide(s.provided[k], c.provided[k]))
    && SameIds(s.permissions, c.permissions)
    && c.package == s.package && c.window == s.window
    && c.name == s.metadata.name && c.summary == s.metadata.summary && c.icon == s.metadata.icon
  }

  predicate CarriesProvide(s: SourceProvide, p: ProvidePlan) {
    && p.exclusive == s.exclusive && p.priority == s.priority
    && s.role == (if p.kind == Role then Some(p.name) else None)
    && s.interface == (if p.kind == Interface then Some(p.name) else None)
    && s.capability == (if p.kind == Capability then Some(p.name) else None)
  }

  /** Version 1 components run in the background and offer nothing; their name is their id. */
  predicate CarriesNoService(c: ComponentPlan) {
    && c.lifecycle == Background && c.idleTimeoutMs == 0 && !c.launchable && c.provided == [] && c.permissions == []
    && c.package == PackagePlan("", "", "", "") && c.window == WindowPlan("", "", "", "", "", "", "")
    && c.name == c.id && c.summary == "" && c.icon == ""
  }

  ghost predicate CarriesProfile(s: SourceProfile, p: RuntimePlan) {
    && p.profileId == s.id && p.display == s.display && p.startup == s.startup
    && SameEntries(s.env, p.profileEnvironment) && SameEntries(s.roles, Preferences(p.rolePreferences))
  }

  function Preferences(roles: seq<RolePreference>): (r: seq<(string, seq<string>)>)
    ensures |r| == |roles| && forall k :: 0 <= k < |r| ==> r[k] == (roles[k].role, roles[k].providers)
  {
    seq(|roles|, k requires 0 <= k < |roles| => (roles[k].role, roles[k].providers))
  }

  predicate CarriesNoProfile(p: RuntimePlan) {
    && p.profileId == "" && p.display == "" && p.profileEnvironment == [] && p.startup == []
    && p.rolePreferences == []
  }

  /** The plan says what the document says, of these components and no others, in start order. */
  ghost predicate Stands(doc: SourceDocument, p: RuntimePlan) {
    && p.stopGraceMs == Default(doc.stopGraceMs, 2000)
    && (if doc.profile.Some? then CarriesProfile(doc.profile.value, p) else CarriesNoProfile(p))
    && UniqueIds(p.components) && |p.components| == |doc.components|
    && (forall s :: s in doc.components ==> exists c :: c in p.components && Carries(s, c))
    && (forall c :: c in p.components ==> exists s :: s in doc.components && Carries(s, c))
    && Ids(p.components) == StartOrder(AfterGraph(p.components))
  }
}
