/** The plan compiler: a source document of either version is checked, given its
    defaults, put in start order and written out. */
module PlanCompiler {
  import opened DependencyGraph
  import opened TextOrder
  import opened RuntimePlanModel
  import opened KahnSort
  import opened PlanGraphCheck
  import opened PlanText
  import opened PlanRecords
  import opened PlanFormat
  import opened PlanSource

  // ---- Checks ----

  function Integer(v: int, low: int, high: int): (r: Option<nat>)
    requires low >= 0
    ensures r.Some? <==> low <= v <= high
    ensures r.Some? ==> r.value == v
  {
    if low <= v <= high then Some(v) else None
  }

  predicate AllDifferent<T(==)>(s: seq<T>) {
    |set x | x in s| == |s|
  }

  lemma {:induction false} AllDifferentIsDistinct<T>(s: seq<T>)
    ensures AllDifferent(s) <==> Distinct(s)
    ensures |set x | x in s| <= |s|
  {
    if s != [] {
      var n := |s| - 1;
      var a, b := (set x | x in s[..n]), (set x | x in s);
      AllDifferentIsDistinct(s[..n]);
      assert s == s[..n] + [s[n]];
      assert b == a + {s[n]};
      if s[n] in s[..n] {
        assert b == a;
        var k :| 0 <= k < n && s[..n][k] == s[n];
        assert s[k] == s[n];
      } else {
        assert |b| == |a| + 1;
        assert forall i, j :: 0 <= i < j < n ==> (s[i] == s[j] <==> s[..n][i] == s[..n][j]);
        if Distinct(s[..n]) {
          forall i, j | 0 <= i < j < |s| ensures s[i] != s[j] {
            assert s[i] == s[..n][i];
            if j < n { assert s[j] == s[..n][j]; }
          }
        }
      }
    }
  }

  // ---- Sorted lists ----

  lemma {:induction false} SortedLength(s: seq<string>)
    ensures |Sorted(s)| <= |s|
  {
    if s != [] {
      SortedLength(s[1..]);
      InsertLength(Sorted(s[1..]), s[0]);
    }
  }

  lemma {:induction false} InsertLength(s: seq<string>, x: string)
    requires Increasing(s)
    ensures |Insert(s, x)| <= |s| + 1
  {
    if s != [] && x != s[0] && !Before(x, s[0]) {
      InsertLength(s[1..], x);
    }
  }

  /** The entry of a key that is there. */
  function Lookup<V>(entries: seq<(string, V)>, key: string): (v: V)
    requires exists k :: 0 <= k < |entries| && entries[k].0 == key
    ensures (key, v) in entries
  {
    if entries[0].0 == key then
      assert entries[0] == (key, entries[0].1);
      entries[0].1
    else
      var v := Lookup(entries[1..], key);
      assert (key, v) in entries[1..];
      v
  }

  function EntryKeys<V>(entries: seq<(string, V)>): (r: seq<string>)
    ensures |r| == |entries| && forall k :: 0 <= k < |r| ==> r[k] == entries[k].0
  {
    seq(|entries|, k requires 0 <= k < |entries| => entries[k].0)
  }

  /** The entries in the order of their keys. */
  function ByKey<V>(entries: seq<(string, V)>): (r: seq<(string, V)>)
    ensures EntryKeys(r) == Sorted(EntryKeys(entries))
    ensures forall e :: e in r ==> e in entries
  {
    var keys := Sorted(EntryKeys(entries));
    seq(|keys|, k requires 0 <= k < |keys| => Entry(entries, keys, k))
  }

  function Entry<V>(entries: seq<(string, V)>, keys: seq<string>, k: nat): (e: (string, V))
    requires k < |keys| && forall y :: y in keys <==> y in EntryKeys(entries)
    ensures e.0 == keys[k] && e in entries
  {
    assert keys[k] in EntryKeys(entries);
    (keys[k], Lookup(entries, keys[k]))
  }

  /** Nothing is lost by sorting entries with different keys. */
  lemma ByKeyKeeps<V>(entries: seq<(string, V)>)
    requires Distinct(EntryKeys(entries))
    ensures forall e :: e in entries <==> e in ByKey(entries)
    ensures Increasing(EntryKeys(ByKey(entries))) && |ByKey(entries)| <= |entries|
  {
    var r, keys := ByKey(entries), EntryKeys(entries);
    SortedLength(keys);
    assert |r| == |EntryKeys(r)|;
    forall e | e in entries ensures e in r {
      var k :| 0 <= k < |entries| && entries[k] == e;
      assert keys[k] == e.0 && e.0 in Sorted(keys);
      var j :| 0 <= j < |r| && EntryKeys(r)[j] == e.0;
      assert r[j] in entries;
      var i :| 0 <= i < |entries| && entries[i] == r[j];
      assert keys[i] == keys[k];
    }
  }

  // ---- Components ----

  function NormalizeProvide(p: SourceProvide): (r: Option<ProvidePlan>)
    ensures r.Some? ==> ProvideOk(r.value)
  {
    var declared := (if p.role.Some? then [(Role, p.role.value)] else [])
                  + (if p.interface.Some? then [(Interface, p.interface.value)] else [])
                  + (if p.capability.Some? then [(Capability, p.capability.value)] else []);
    if |declared| != 1 || !ValidId(declared[0].1) then None
    else
      var priority :- Integer(p.priority, 0, 1_000_000);
      Some(ProvidePlan(declared[0].0, declared[0].1, p.exclusive, priority))
  }

  function NormalizeProvides(ps: seq<SourceProvide>): (r: Option<seq<ProvidePlan>>)
    ensures r.Some? ==> |r.value| == |ps| && forall p :: p in r.value ==> ProvideOk(p)
  {
    if ps == [] then Some([])
    else
      var p :- NormalizeProvide(ps[0]);
      var rest :- NormalizeProvides(ps[1..]);
      Some([p] + rest)
  }

  predicate EnvironmentOk(env: seq<(string, string)>) {
    |env| <= 64 && AllDifferent(EntryKeys(env)) && forall k :: 0 <= k < |env| ==> EnvOk(env[k])
  }

  predicate IdsOk(ids: seq<string>, bound: nat) {
    |ids| <= bound && (forall k :: 0 <= k < |ids| ==> ValidId(ids[k])) && AllDifferent(ids)
  }

  /** The settings both versions share. */
  function NormalizeHeader(c: SourceComponent, service: Service): (r: Option<Header>)
    requires ServiceOk(service)
    ensures r.Some? ==>
      HeaderOk(r.value) && r.value.service == service && r.value.args == |c.exec| && r.value.id == c.id
  {
    if !ValidId(c.id) || !(1 <= |c.exec| <= 64) then None
    else
      var kind :- KindNamed(c.kind);
      var restart :- RestartNamed(c.restart);
      var readiness :- ReadinessNamed(c.readinessMode);
      if readiness == X11Display && c.service.None? then None
      else
        var timeout :- Integer(c.readinessTimeoutMs, 1, 300_000);
        var initial :- Integer(Default(c.backoff.initialMs, 250), 1, 60_000);
        var max :- Integer(Default(c.backoff.maxMs, 30_000), initial, 300_000);
        var limit :- Integer(Default(c.backoff.limit, 8), 0, 1000);
        Some(Header(c.id, kind, c.critical, restart, readiness, timeout, initial, max, limit, |c.exec|, 0, 0, service))
  }

  function NormalizeService(s: SourceService): (r: Option<(Service, Extra)>)
    ensures r.Some? ==>
      && ServiceOk(r.value.0) && |r.value.1.provided| == r.value.0.provided
      && |r.value.1.permissions| == r.value.0.permissions
  {
    var lifecycle :- LifecycleNamed(s.lifecycle);
    var idle :- Integer(s.idleTimeoutMs, 0, 3_600_000);
    if (lifecycle == OnDemand && idle < 100) || (lifecycle != OnDemand && idle != 0) then None
    else if |s.provided| > 32 || |s.permissions| > 128 then None
    else
      var provided :- NormalizeProvides(s.provided);
      if !AllDifferent(Services(provided)) || !AllDifferent(s.permissions)
         || (exists k :: 0 <= k < |s.permissions| && !PermissionOk(s.permissions[k]))
         || !PackageOk(s.package) || !MetadataOk(s.metadata) || !WindowOk(s.window) then None
      else
        var permissions := Sorted(s.permissions);
        assert |permissions| <= |s.permissions| by { SortedLength(s.permissions); }
        Some((Service(lifecycle, idle, |provided|, |permissions|, s.launchable),
              Extra(provided, permissions, s.package, s.metadata, s.window)))
  }

  function NormalizeComponent(c: SourceComponent): Option<ComponentPlan> {
    var service :- (if c.service.None? then Some((NO_SERVICE, NoExtra(c.id))) else NormalizeService(c.service.value));
    var header :- NormalizeHeader(c, service.0);
    if !IdsOk(c.after, 32) || !EnvironmentOk(c.env) || !Absolute(c.exec)
       || (exists k :: 0 <= k < |c.exec| && !TextOk(c.exec[k], 4096)) then None
    else Some(Assemble(header, c.exec, Sorted(c.after), ByKey(c.env), service.1))
  }

  function NormalizeComponents(cs: seq<SourceComponent>, two: bool): Option<seq<ComponentPlan>> {
    if cs == [] then Some([])
    else if cs[0].service.Some? != two then None
    else
      var c :- NormalizeComponent(cs[0]);
      var rest :- NormalizeComponents(cs[1..], two);
      Some([c] + rest)
  }

  // ---- Which components are accepted, and what becomes of their settings ----

  lemma WordsAreRead(c: SourceComponent)
    ensures KindNamed(c.kind).Some? <==> c.kind in ["display", "window", "shell", "other"]
    ensures RestartNamed(c.restart).Some? <==> c.restart in ["never", "on-failure", "always"]
    ensures ReadinessNamed(c.readinessMode).Some? <==>
            c.readinessMode in ["exec", "fd", "mipc-ready"] || c.readinessMode == "x11-display"
    ensures c.readinessMode in ["exec", "fd", "mipc-ready"] ==> ReadinessNamed(c.readinessMode) != Some(X11Display)
  {
  }

  lemma HeaderAccepted(c: SourceComponent, service: Service)
    requires ServiceOk(service)
    ensures NormalizeHeader(c, service).Some? <==> AcceptableHeader(c) && 1 <= |c.exec| <= 64
  {
    hide ValidId, KindNamed, RestartNamed, ReadinessNamed, ServiceOk;
    WordsAreRead(c);
  }

  lemma HeaderCarried(s: SourceComponent, service: Service, argv: seq<string>, after: seq<string>,
                      env: seq<(string, string)>, x: Extra)
    requires ServiceOk(service)
    ensures var h := NormalizeHeader(s, service); h.Some? ==> CarriesSettings(s, Assemble(h.value, argv, after, env, x))
  {
    hide ValidId, ServiceOk;
  }

  lemma ListsAccepted(c: SourceComponent)
    ensures AcceptableLists(c) <==>
            1 <= |c.exec| <= 64 && IdsOk(c.after, 32) && EnvironmentOk(c.env) && Absolute(c.exec) &&
            forall k :: 0 <= k < |c.exec| ==> TextOk(c.exec[k], 4096)
  {
    hide ValidId, EnvOk, TextOk, AllDifferent, EnvironmentOk, AcceptableEnvironment;
    AllDifferentIsDistinct(c.after);
    EnvironmentAccepted(c.env);
  }

  lemma EnvironmentAccepted(env: seq<(string, string)>)
    ensures EnvironmentOk(env) <==> AcceptableEnvironment(env)
  {
    hide EnvOk, AllDifferent;
    KeysAccepted(env);
  }

  lemma KeysAccepted<V>(entries: seq<(string, V)>)
    ensures AllDifferent(EntryKeys(entries)) <==> DifferentKeys(entries)
  {
    hide AllDifferent;
    AllDifferentIsDistinct(EntryKeys(entries));
  }

  lemma ListsCarried(ids: seq<string>, env: seq<(string, string)>)
    requires IdsOk(ids, 32) && EnvironmentOk(env)
    ensures SameIds(ids, Sorted(ids)) && SameEntries(env, ByKey(env))
  {
    hide ValidId, EnvironmentOk, AllDifferent, SameEntries;
    EnvironmentKept(env);
  }

  lemma EntriesKept<V>(entries: seq<(string, V)>)
    requires Distinct(EntryKeys(entries))
    ensures SameEntries(entries, ByKey(entries))
  {
    ByKeyKeeps(entries);
    var r := ByKey(entries);
    forall i, j | 0 <= i < j < |r| ensures Before(r[i].0, r[j].0) {
      assert Before(EntryKeys(r)[i], EntryKeys(r)[j]);
    }
  }

  lemma ProvideAccepted(s: SourceProvide)
    ensures var r := NormalizeProvide(s);
      (r.Some? <==> AcceptableProvide(s)) && (r.Some? ==> CarriesProvide(s, r.value))
  {
    hide ValidId;
  }

  lemma {:induction false} ProvidesAccepted(ps: seq<SourceProvide>)
    ensures var r := NormalizeProvides(ps);
      && (r.Some? <==> forall p :: p in ps ==> AcceptableProvide(p))
      && (r.Some? ==> forall k :: 0 <= k < |ps| ==> CarriesProvide(ps[k], r.value[k]))
  {
    hide NormalizeProvide, AcceptableProvide, CarriesProvide;
    if ps != [] {
      ProvideAccepted(ps[0]);
      ProvidesAccepted(ps[1..]);
      var r := NormalizeProvides(ps);
      assert forall p :: p in ps <==> p == ps[0] || p in ps[1..];
    }
  }

  lemma SameServices(ps: seq<SourceProvide>, provided: seq<ProvidePlan>)
    requires |provided| == |ps| && forall k :: 0 <= k < |ps| ==> CarriesProvide(ps[k], provided[k])
    ensures Distinct(Services(provided)) <==>
            forall i, j :: 0 <= i < j < |ps| ==> !SameService(ps[i], ps[j])
  {
    hide CarriesProvide;
    forall i, j | 0 <= i < j < |ps|
      ensures SameService(ps[i], ps[j]) <==> Services(provided)[i] == Services(provided)[j]
    {
      SameServiceIsSame(ps[i], ps[j], provided[i], provided[j]);
    }
  }

  lemma SameServiceIsSame(a: SourceProvide, b: SourceProvide, p: ProvidePlan, q: ProvidePlan)
    requires CarriesProvide(a, p) && CarriesProvide(b, q)
    ensures SameService(a, b) <==> ServiceOf(p) == ServiceOf(q)
  {
  }

  lemma LifecycleIsRead(word: string)
    ensures LifecycleNamed(word).Some? <==> word == "on-demand" || word in ["background", "manual"]
    ensures LifecycleNamed(word) == Some(OnDemand) <==> word == "on-demand"
    ensures LifecycleNamed(word) == Some(Background) <==> word == "background"
    ensures LifecycleNamed(word) == Some(Manual) <==> word == "manual"
  {
  }

  lemma ServiceAccepted(s: SourceService)
    ensures NormalizeService(s).Some? <==> AcceptableService(s)
    ensures NormalizeService(s).Some? ==> SameIds(s.permissions, NormalizeService(s).value.1.permissions)
  {
    hide PermissionOk, PackageOk, MetadataOk, WindowOk, LifecycleNamed, AcceptableProvide, SameService, AllDifferent,
         Services, Sorted, CarriesProvide;
    LifecycleIsRead(s.lifecycle);
    ProvidesAccepted(s.provided);
    var provided := NormalizeProvides(s.provided);
    if provided.Some? {
      SameServices(s.provided, provided.value);
      AllDifferentIsDistinct(Services(provided.value));
    }
    AllDifferentIsDistinct(s.permissions);
  }

  lemma ServiceCarried(s: SourceService, h: Header, argv: seq<string>, after: seq<string>, env: seq<(string, string)>)
    requires NormalizeService(s).Some? && h.service == NormalizeService(s).value.0
    ensures CarriesService(s, Assemble(h, argv, after, env, NormalizeService(s).value.1))
  {
    hide PermissionOk, PackageOk, MetadataOk, WindowOk, LifecycleNamed, AllDifferent, Services, Sorted, SameIds,
         CarriesProvide;
    LifecycleIsRead(s.lifecycle);
    ProvidesAccepted(s.provided);
    ServiceAccepted(s);
  }

  /** Exactly the components whose fields are in range are accepted, and each keeps all its settings. */
  lemma ComponentAccepted(c: SourceComponent)
    ensures var r := NormalizeComponent(c); (r.Some? <==> Acceptable(c)) && (r.Some? ==> Carries(c, r.value))
  {
    hide ValidId, TextOk, IdsOk, EnvironmentOk, AcceptableHeader, AcceptableLists, AcceptableService, NormalizeService,
         NormalizeHeader, ServiceOk, Sorted, ByKey, SameIds, SameEntries, CarriesService, CarriesSettings, Absolute;
    NoServiceOk();
    var service := if c.service.None? then Some((NO_SERVICE, NoExtra(c.id))) else NormalizeService(c.service.value);
    if c.service.Some? {
      ServiceAccepted(c.service.value);
    }
    ListsAccepted(c);
    if service.Some? {
      HeaderAccepted(c, service.value.0);
      HeaderCarried(c, service.value.0, c.exec, Sorted(c.after), ByKey(c.env), service.value.1);
      var r := NormalizeComponent(c);
      if r.Some? {
        ListsCarried(c.after, c.env);
        if c.service.Some? {
          ServiceCarried(c.service.value, NormalizeHeader(c, service.value.0).value, c.exec, Sorted(c.after),
                         ByKey(c.env));
        }
      }
    }
  }

  lemma RolesAccepted(roles: seq<(string, seq<string>)>)
    ensures (forall k :: 0 <= k < |roles| ==> SourceRoleOk(roles[k])) <==> forall r :: r in roles ==> AcceptableRole(r)
  {
    hide ValidId, AllDifferent, Distinct;
    forall r ensures SourceRoleOk(r) <==> AcceptableRole(r) {
      AllDifferentIsDistinct(r.1);
    }
  }

  /** Exactly the profiles whose fields are in range are accepted, and each keeps all its settings. */
  lemma ProfileAccepted(p: SourceProfile, grace: nat, cs: seq<ComponentPlan>)
    ensures var r := NormalizeProfile(p);
      (r.Some? <==> AcceptableProfile(p)) && (r.Some? ==> CarriesProfile(p, PlanOf(grace, r.value, cs)))
  {
    hide ValidId, TextOk, AllDifferent, EnvironmentOk, AcceptableEnvironment, SourceRoleOk, Distinct, DifferentKeys,
         SameEntries, ByKey, Mapped;
    RolesAccepted(p.roles);
    EnvironmentAccepted(p.env);
    KeysAccepted(p.roles);
    AllDifferentIsDistinct(p.startup);
    if NormalizeProfile(p).Some? {
      EnvironmentKept(p.env);
      RolesKept(p.roles);
    }
  }

  lemma EnvironmentKept(env: seq<(string, string)>)
    requires EnvironmentOk(env)
    ensures SameEntries(env, ByKey(env))
  {
    hide EnvOk, AllDifferent;
    AllDifferentIsDistinct(EntryKeys(env));
    EntriesKept(env);
  }

  lemma RolesKept(roles: seq<(string, seq<string>)>)
    requires AllDifferent(EntryKeys(roles))
    ensures SameEntries(roles, Preferences(Mapped(PreferenceOf, ByKey(roles))))
  {
    hide AllDifferent, SameEntries, ByKey;
    AllDifferentIsDistinct(EntryKeys(roles));
    EntriesKept(roles);
    assert Preferences(Mapped(PreferenceOf, ByKey(roles))) == ByKey(roles);
  }

  // ---- What normalizing guarantees ----

  lemma SortedIds(ids: seq<string>, bound: nat)
    requires IdsOk(ids, bound)
    ensures |Sorted(ids)| <= bound && (forall d :: d in Sorted(ids) ==> ValidId(d)) && Distinct(Sorted(ids))
  {
    SortedLength(ids);
    IncreasingDistinct(Sorted(ids));
  }

  lemma SortedEnvironment(env: seq<(string, string)>)
    requires EnvironmentOk(env)
    ensures |ByKey(env)| <= 64 && (forall e :: e in ByKey(env) ==> EnvOk(e)) && Distinct(Keys(ByKey(env)))
    ensures forall e :: e in env <==> e in ByKey(env)
  {
    hide EnvOk, AllDifferent;
    AllDifferentIsDistinct(EntryKeys(env));
    ByKeyKeeps(env);
    IncreasingDistinct(EntryKeys(ByKey(env)));
    assert Keys(ByKey(env)) == EntryKeys(ByKey(env));
  }

  lemma NormalizedServiceOk(s: SourceService)
    ensures var r := NormalizeService(s); r.Some? ==>
      var x := r.value.1;
      && (forall p :: p in x.provided ==> ProvideOk(p)) && Distinct(Services(x.provided))
      && (forall q :: q in x.permissions ==> PermissionOk(q)) && Distinct(x.permissions)
      && PackageOk(x.package) && MetadataOk(x.metadata) && WindowOk(x.window)
  {
    hide AllDifferent, PermissionOk, PackageOk, MetadataOk, WindowOk, ProvideOk, LifecycleNamed, Mapped, Sorted;
    var r := NormalizeService(s);
    if r.Some? {
      AllDifferentIsDistinct(Services(r.value.1.provided));
      IncreasingDistinct(r.value.1.permissions);
    }
  }

  lemma NormalizedComponentOk(c: SourceComponent)
    ensures var r := NormalizeComponent(c); r.Some? ==>
      ComponentOk(r.value, c.service.Some?) && Distinct(r.value.after) && r.value.id == c.id
  {
    hide AllDifferent, ValidId, ProvideOk, PermissionOk, PackageOk, MetadataOk, WindowOk, EnvOk, TextOk, IdsOk,
         EnvironmentOk, NormalizeService, NormalizeHeader, Sorted, ByKey, Mapped, Distinct, Absolute, ServiceOk;
    var r := NormalizeComponent(c);
    if r.Some? {
      SortedIds(c.after, 32);
      SortedEnvironment(c.env);
      if c.service.Some? {
        NormalizedServiceOk(c.service.value);
      } else {
        NoServiceOk();
      }
    }
  }

  lemma NoServiceOk()
    ensures ServiceOk(NO_SERVICE)
  {
  }

  lemma {:induction false} NormalizedComponentsOk(cs: seq<SourceComponent>, two: bool)
    ensures var r := NormalizeComponents(cs, two); r.Some? ==>
      && |r.value| == |cs| && DependenciesDistinct(r.value)
      && (forall c :: c in r.value ==> ComponentOk(c, two))
      && (forall k :: 0 <= k < |cs| ==> NormalizeComponent(cs[k]) == Some(r.value[k]))
  {
    hide ComponentOk, NormalizeComponent, Distinct;
    var r := NormalizeComponents(cs, two);
    if cs != [] && r.Some? {
      NormalizedComponentOk(cs[0]);
      NormalizedComponentsOk(cs[1..], two);
    }
  }

  // ---- Profiles ----

  predicate SourceRoleOk(r: (string, seq<string>)) {
    ValidId(r.0) && 1 <= |r.1| && IdsOk(r.1, MAX_COMPONENTS)
  }

  function PreferenceOf(r: (string, seq<string>)): RolePreference {
    RolePreference(r.0, r.1)
  }

  function NormalizeProfile(p: SourceProfile): Option<Profile> {
    if !ValidId(p.id) || !TextOk(p.display, 63)
       || |p.roles| > 64 || !AllDifferent(EntryKeys(p.roles)) ||
         (exists k :: 0 <= k < |p.roles| && !SourceRoleOk(p.roles[k]))
       || !IdsOk(p.startup, MAX_COMPONENTS) || !EnvironmentOk(p.env) then None
    else Some(Profile(p.id, p.display, Mapped(PreferenceOf, ByKey(p.roles)), ByKey(p.env), p.startup))
  }

  lemma SortedRoles(roles: seq<(string, seq<string>)>)
    requires |roles| <= 64 && AllDifferent(EntryKeys(roles)) && forall k :: 0 <= k < |roles| ==> SourceRoleOk(roles[k])
    ensures var r := Mapped(PreferenceOf, ByKey(roles));
      |r| <= 64 && (forall x :: x in r ==> RoleOk(x)) && Distinct(RoleNames(r))
  {
    hide AllDifferent, ValidId, Distinct;
    AllDifferentIsDistinct(EntryKeys(roles));
    ByKeyKeeps(roles);
    var sorted := ByKey(roles);
    var r := Mapped(PreferenceOf, sorted);
    IncreasingDistinct(EntryKeys(sorted));
    assert RoleNames(r) == EntryKeys(sorted);
    forall x | x in r ensures RoleOk(x) {
      var k :| 0 <= k < |r| && r[k] == x;
      assert sorted[k] in roles;
      AllDifferentIsDistinct(sorted[k].1);
    }
  }

  lemma NormalizedProfileOk(p: SourceProfile)
    ensures var r := NormalizeProfile(p); r.Some? ==> ProfileFine(r.value)
  {
    hide AllDifferent, ValidId, EnvOk, TextOk, SourceRoleOk, RoleOk, EnvironmentOk, Distinct, Mapped, ByKey;
    var r := NormalizeProfile(p);
    if r.Some? {
      SortedRoles(p.roles);
      SortedEnvironment(p.env);
      AllDifferentIsDistinct(p.startup);
    }
  }

  // ---- Documents ----

  /** The components in start order. */
  ghost function Arranged(cs: seq<ComponentPlan>): (r: seq<ComponentPlan>)
    requires cs != []
    ensures |r| == |StartOrder(AfterGraph(cs))|
  {
    var order := StartOrder(AfterGraph(cs));
    seq(|order|, k requires 0 <= k < |order| => ComponentNamed(cs, order[k]))
  }

  ghost function ComponentNamed(cs: seq<ComponentPlan>, id: string): ComponentPlan
    requires cs != []
  {
    var k := IndexOf(cs, id);
    if k.Some? then cs[k.value] else cs[0]
  }

  /** Every preferred provider exists and provides the role it is preferred for. */
  ghost predicate PreferencesProvided(p: RuntimePlan) {
    forall r, s :: r in p.rolePreferences && s in r.providers ==> Provides(p.components, s, r.role)
  }

  predicate Provides(cs: seq<ComponentPlan>, id: string, role: string) {
    exists c :: c in cs && c.id == id && exists p :: p in c.provided && p.kind == Role && p.name == role
  }

  /** The plan a document stands for, if the compiler accepts it. */
  ghost function Normalized(doc: SourceDocument): Option<RuntimePlan> {
    var two := doc.profile.Some?;
    var grace :- Integer(Default(doc.stopGraceMs, 2000), 100, 60_000);
    var profile :- (if two then NormalizeProfile(doc.profile.value) else Some(NO_PROFILE));
    if !(1 <= |doc.components| <= MAX_COMPONENTS) then None
    else
      var cs :- NormalizeComponents(doc.components, two);
      if cs == [] || !Sortable(cs) || Cyclic(AfterGraph(cs)) then None
      else
        var plan := PlanOf(grace, profile, Arranged(cs));
        if two && (!ProfileKnown(plan) || !PreferencesProvided(plan)) then None else Some(plan)
  }

  /** Which text the compiler writes for a document, if any. */
  ghost function Compiled(doc: SourceDocument): Option<string> {
    var plan :- Normalized(doc);
    var text := TextOfPlan(plan, doc.profile.Some?);
    if |text| > MAX_PLAN_BYTES then None else Some(text)
  }

  lemma ArrangedIsSorted(cs: seq<ComponentPlan>, sorted: seq<ComponentPlan>)
    requires UniqueIds(cs) && cs != [] && Ids(sorted) == StartOrder(AfterGraph(cs)) && Elements(sorted) == Elements(cs)
    ensures sorted == Arranged(cs)
  {
    hide StartOrder, AfterGraph, UniqueIds, ComponentNamed;
    forall k | 0 <= k < |sorted| ensures sorted[k] == ComponentNamed(cs, Ids(sorted)[k]) {
      assert sorted[k] in Elements(sorted);
      NamedIs(cs, sorted[k]);
    }
  }

  lemma GraphIsClosed(cs: seq<ComponentPlan>)
    requires UniqueIds(cs) && DependenciesKnown(cs)
    ensures Closed(AfterGraph(cs))
  {
    var g := AfterGraph(cs);
    forall v, d | v in g && d in g[v] ensures d in g {
      var k :| 0 <= k < |cs| && Ids(cs)[k] == v;
      assert cs[k].id == v && d in cs[k].after;
    }
  }

  lemma NamedIs(cs: seq<ComponentPlan>, c: ComponentPlan)
    requires UniqueIds(cs) && c in cs
    ensures ComponentNamed(cs, c.id) == c
  {
    var j :| 0 <= j < |cs| && cs[j] == c;
    var i := IndexOf(cs, c.id).value;
    assert Ids(cs)[i] == Ids(cs)[j];
  }

  lemma NamedInGraph(cs: seq<ComponentPlan>, id: string)
    requires cs != [] && UniqueIds(cs) && id in AfterGraph(cs)
    ensures ComponentNamed(cs, id).id == id && ComponentNamed(cs, id) in cs
  {
    hide UniqueIds;
    var j :| 0 <= j < |cs| && Ids(cs)[j] == id;
    assert cs[j] in cs;
    NamedIs(cs, cs[j]);
  }

  lemma ArrangedElements(cs: seq<ComponentPlan>, order: seq<string>)
    requires cs != [] && UniqueIds(cs) && order == StartOrder(AfterGraph(cs))
    requires forall v :: v in order <==> v in AfterGraph(cs)
    ensures Ids(Arranged(cs)) == order && Elements(Arranged(cs)) == Elements(cs)
  {
    hide StartOrder, UniqueIds, ComponentNamed, AfterGraph;
    var r := Arranged(cs);
    forall k | 0 <= k < |order| ensures r[k].id == order[k] && r[k] in cs {
      assert order[k] in order;
      NamedInGraph(cs, order[k]);
    }
    forall c | c in cs ensures c in r {
      GraphEntry(cs, c);
      var k :| 0 <= k < |order| && order[k] == c.id;
      NamedIs(cs, c);
      assert r[k] == c;
    }
  }

  lemma DistinctElsewhere(a: seq<ComponentPlan>, b: seq<ComponentPlan>, k: nat)
    requires Elements(a) == Elements(b) && DependenciesDistinct(a) && k < |b|
    ensures Distinct(b[k].after)
  {
    var j := Elsewhere(b, a, k);
    assert Distinct(a[j].after);
  }

  /** What depends only on which components there are. */
  lemma SameSet(a: seq<ComponentPlan>, b: seq<ComponentPlan>)
    requires Elements(a) == Elements(b)
    ensures HasCritical(a) ==> HasCritical(b)
    ensures DependenciesKnown(a) ==> DependenciesKnown(b)
    ensures DependenciesDistinct(a) ==> DependenciesDistinct(b)
  {
    hide Distinct, Elements, DependenciesKnown, HasCritical;
    CriticalElsewhere(a, b);
    if DependenciesKnown(a) {
      AllKnownElsewhere(a, b);
    }
    if DependenciesDistinct(a) {
      forall k | 0 <= k < |b| ensures Distinct(b[k].after) { DistinctElsewhere(a, b, k); }
    }
  }

  /** Putting components in start order keeps them, and makes a plan the parser's graph check accepts. */
  lemma ArrangedIsWellOrdered(cs: seq<ComponentPlan>)
    requires cs != [] && Sortable(cs) && DependenciesDistinct(cs) && !Cyclic(AfterGraph(cs))
    ensures WellOrdered(Arranged(cs)) && Elements(Arranged(cs)) == Elements(cs) && |Arranged(cs)| == |cs|
    ensures Ids(Arranged(cs)) == StartOrder(AfterGraph(cs))
  {
    hide StartOrder, Cyclic, Distinct, HasCritical, DependenciesKnown, DependenciesDistinct, Elements;
    var g, sorted := AfterGraph(cs), Arranged(cs);
    var order := StartOrder(g);
    GraphIsClosed(cs);
    StartOrderCorrect(g);
    OrderInGraph(g, order);
    ArrangedElements(cs, order);
    CompleteOrder(g, order, Ids(cs));
    SameSet(cs, sorted);
    AfterGraphOfSet(cs, sorted);
  }

  lemma OrderInGraph(g: Graph, order: seq<string>)
    requires Topological(g, order)
    ensures Distinct(order) && forall v :: v in order ==> v in g
  {
  }

  lemma CompleteOrder(g: Graph, order: seq<string>, ids: seq<string>)
    requires Distinct(order) && Distinct(ids)
    requires (forall v :: v in order <==> v in g) && (forall v :: v in ids <==> v in g)
    ensures |order| == |ids|
  {
    assert Elements(order) == Elements(ids);
    CompleteBySize(ids, order);
  }

  lemma NormalizedParts(doc: SourceDocument) returns (grace: nat, profile: Profile, cs: seq<ComponentPlan>)
    requires Normalized(doc).Some?
    ensures 100 <= grace == Default(doc.stopGraceMs, 2000) <= 60_000 && 1 <= |doc.components| <= MAX_COMPONENTS
    ensures if doc.profile.Some? then NormalizeProfile(doc.profile.value) == Some(profile) else profile == NO_PROFILE
    ensures NormalizeComponents(doc.components, doc.profile.Some?) == Some(cs) && cs != []
    ensures Sortable(cs) && !Cyclic(AfterGraph(cs)) && Normalized(doc).value == PlanOf(grace, profile, Arranged(cs))
    ensures doc.profile.Some? ==> ProfileKnown(Normalized(doc).value) && PreferencesProvided(Normalized(doc).value)
  {
    hide ProfileKnown, PreferencesProvided, Sortable, Cyclic, Arranged, NormalizeComponents, NormalizeProfile,
         AfterGraph;
    grace := Default(doc.stopGraceMs, 2000);
    profile := if doc.profile.Some? then NormalizeProfile(doc.profile.value).value else NO_PROFILE;
    cs := NormalizeComponents(doc.components, doc.profile.Some?).value;
  }

  lemma NormalizedOk(doc: SourceDocument)
    requires Normalized(doc).Some?
    ensures PlanOk(Normalized(doc).value, doc.profile.Some?)
    ensures doc.profile.Some? ==> PreferencesProvided(Normalized(doc).value)
  {
    hide Normalized, ComponentOk, ProfileFine, WellOrdered, ProfileKnown, PreferencesProvided, Sortable, Cyclic,
         Arranged, NormalizeComponents, NormalizeProfile, DependenciesDistinct, AfterGraph;
    var two := doc.profile.Some?;
    var grace, profile, cs := NormalizedParts(doc);
    if two { NormalizedProfileOk(doc.profile.value); }
    NormalizedComponentsOk(doc.components, two);
    ArrangedIsWellOrdered(cs);
    forall c | c in Arranged(cs) ensures ComponentOk(c, two) {
      assert c in Elements(Arranged(cs));
      assert c in Elements(cs);
    }
  }

  /** An accepted document yields a plan that says what the document says. */
  lemma NormalizedStands(doc: SourceDocument)
    requires Normalized(doc).Some?
    ensures Stands(doc, Normalized(doc).value)
    ensures forall s :: s in doc.components ==> Acceptable(s) && s.service.Some? == doc.profile.Some?
  {
    hide Normalized, ProfileKnown, PreferencesProvided, Sortable, Cyclic, StartOrder, Arranged, NormalizeComponents,
         NormalizeProfile, AfterGraph, WellOrdered, Carries, CarriesProfile, Acceptable, ComponentOk,
         NormalizeComponent, UniqueIds, Elements, DependenciesDistinct;
    var two := doc.profile.Some?;
    var grace, profile, cs := NormalizedParts(doc);
    if two { ProfileAccepted(doc.profile.value, grace, Arranged(cs)); }
    NormalizedComponentsOk(doc.components, two);
    ArrangedIsWellOrdered(cs);
    SameGraph(cs);
    ComponentsCarried(doc.components, two, cs, Arranged(cs));
  }

  lemma SameGraph(cs: seq<ComponentPlan>)
    requires cs != [] && Sortable(cs) && WellOrdered(Arranged(cs)) && Elements(Arranged(cs)) == Elements(cs)
    ensures UniqueIds(cs) && UniqueIds(Arranged(cs)) && AfterGraph(Arranged(cs)) == AfterGraph(cs)
  {
    hide Arranged, Elements, AfterGraph, UniqueIds, Cyclic;
    SortableParts(cs);
    AfterGraphOfSet(cs, Arranged(cs));
  }

  lemma ComponentsCarried(source: seq<SourceComponent>, two: bool, cs: seq<ComponentPlan>, arranged: seq<ComponentPlan>)
    requires NormalizeComponents(source, two) == Some(cs) && Elements(arranged) == Elements(cs)
    requires |cs| == |source| && forall k :: 0 <= k < |cs| ==> NormalizeComponent(source[k]) == Some(cs[k])
    ensures forall s :: s in source ==> Acceptable(s) && s.service.Some? == two
    ensures forall s :: s in source ==> exists c :: c in arranged && Carries(s, c)
    ensures forall c :: c in arranged ==> exists s :: s in source && Carries(s, c)
  {
    hide NormalizeComponent, NormalizeComponents, Carries, Acceptable;
    VersionsAgree(source, two);
    forall s | s in source ensures Acceptable(s) && exists c :: c in arranged && Carries(s, c) {
      var k :| 0 <= k < |source| && source[k] == s;
      ComponentAccepted(s);
      assert cs[k] in Elements(cs);
    }
    forall c | c in arranged ensures exists s :: s in source && Carries(s, c) {
      assert c in Elements(arranged);
      var k :| 0 <= k < |cs| && cs[k] == c;
      ComponentAccepted(source[k]);
    }
  }

  lemma {:induction false} VersionsAgree(source: seq<SourceComponent>, two: bool)
    requires NormalizeComponents(source, two).Some?
    ensures forall s :: s in source ==> s.service.Some? == two
  {
    hide NormalizeComponent;
    if source != [] {
      VersionsAgree(source[1..], two);
    }
  }

  /** For every document the compiler accepts, the parser accepts the text it writes and returns exactly the
      normalized plan. */
  lemma RoundTrip(doc: SourceDocument)
    requires Compiled(doc).Some?
    ensures ParsePlan(Compiled(doc).value) == Normalized(doc)
  {
    hide Normalized, TextOfPlan, ParsePlan, PlanOk;
    NormalizedOk(doc);
    ParseInvertsPrint(Normalized(doc).value, doc.profile.Some?);
  }

  // ---- The compiler ----

  /** The lines of the preferred roles, role by role. */
  method EmitRoles(roles: seq<RolePreference>) returns (lines: seq<string>)
    ensures lines == AllRoleLines(roles)
  {
    hide AllRoleLines, RoleLines;
    lines := [];
    assert roles[0..] == roles;
    for k := 0 to |roles|
      invariant lines + AllRoleLines(roles[k..]) == AllRoleLines(roles)
    {
      RoleLinesStep(roles, k);
      lines := lines + RoleLines(roles[k]);
    }
    RoleLinesEnd(roles);
  }

  /** The lines of the components, one after another. */
  method EmitComponents(cs: seq<ComponentPlan>, two: bool) returns (lines: seq<string>)
    ensures lines == AllComponentLines(cs, two)
  {
    hide AllComponentLines, ComponentLines;
    lines := [];
    assert cs[0..] == cs;
    for k := 0 to |cs|
      invariant lines + AllComponentLines(cs[k..], two) == AllComponentLines(cs, two)
    {
      ComponentLinesStep(cs, two, k);
      lines := lines + ComponentLines(cs[k], two);
    }
    ComponentLinesEnd(cs, two);
  }

  method EmitLines(p: RuntimePlan, two: bool) returns (lines: seq<string>)
    ensures lines == PlanLines(p, two)
  {
    hide AllComponentLines, AllRoleLines, Mapped, GraceLine, ProfileLine;
    lines := [if two then HEADER_V2 else HEADER_V1, GraceLine(p.stopGraceMs)];
    ghost var start := lines;
    if two {
      lines := lines + [ProfileLine(ProfileHeaderOf(ProfileOf(p)))];
      var roles := EmitRoles(p.rolePreferences);
      lines := lines + roles;
      lines := lines + Mapped(ProfileEnvLine, p.profileEnvironment);
      lines := lines + Mapped(StartupLine, p.startup);
    }
    assert lines == start + ProfileLines(ProfileOf(p), two);
    var components := EmitComponents(p.components, two);
    lines := lines + components;
  }

  lemma RoleLinesStep(roles: seq<RolePreference>, k: nat)
    requires k < |roles|
    ensures AllRoleLines(roles[k..]) == RoleLines(roles[k]) + AllRoleLines(roles[k+1..])
  {
    assert roles[k..][1..] == roles[k+1..];
  }

  lemma RoleLinesEnd(roles: seq<RolePreference>)
    ensures AllRoleLines(roles[|roles|..]) == []
  {
  }

  lemma ComponentLinesStep(cs: seq<ComponentPlan>, two: bool, k: nat)
    requires k < |cs|
    ensures AllComponentLines(cs[k..], two) == ComponentLines(cs[k], two) + AllComponentLines(cs[k+1..], two)
  {
    assert cs[k..][1..] == cs[k+1..];
  }

  lemma ComponentLinesEnd(cs: seq<ComponentPlan>, two: bool)
    ensures AllComponentLines(cs[|cs|..], two) == []
  {
  }

  /** Does the profile name only existing components, and prefer only providers of the role? */
  method CheckReferences(p: RuntimePlan) returns (ok: bool)
    ensures ok <==> ProfileKnown(p) && PreferencesProvided(p)
  {
    var ids := Ids(p.components);
    ok := (forall s :: s in p.startup ==> s in ids)
       && (forall r :: r in p.rolePreferences ==> forall s :: s in r.providers ==>
           s in ids && Provides(p.components, s, r.role));
  }

  /** The whole compiler. */
  method CompileDocument(doc: SourceDocument) returns (r: Option<string>)
    ensures r == Compiled(doc)
    ensures r.Some? ==> ParsePlan(r.value).Some? && Stands(doc, ParsePlan(r.value).value)
  {
    hide NormalizeProfile, NormalizeComponents, Sortable, Cyclic, ProfileKnown, PreferencesProvided, Arranged,
         PlanLines, Unlines, DependenciesDistinct, UniqueIds, StartOrder, AfterGraph, Elements, Topological, Distinct,
         ComponentOk, NormalizeComponent;
    var two := doc.profile.Some?;
    var grace := Integer(Default(doc.stopGraceMs, 2000), 100, 60_000);
    var profile := if two then NormalizeProfile(doc.profile.value) else Some(NO_PROFILE);
    if grace.None? || profile.None? || !(1 <= |doc.components| <= MAX_COMPONENTS) {
      return None;
    }
    var components := NormalizeComponents(doc.components, two);
    if components.None? {
      return None;
    }
    var cs := components.value;
    NormalizedComponentsOk(doc.components, two);
    var sorted := TopologicalComponents(cs);
    if sorted.Err? {
      return None;
    }
    SortableParts(cs);
    ArrangedIsSorted(cs, sorted.value);
    var plan := PlanOf(grace.value, profile.value, sorted.value);
    if two {
      var ok := CheckReferences(plan);
      if !ok {
        return None;
      }
    }
    var lines := EmitLines(plan, two);
    var text := Unlines(lines);
    r := if |text| > MAX_PLAN_BYTES then None else Some(text);
    if r.Some? {
      RoundTrip(doc);
      NormalizedStands(doc);
    }
  }
}
