/** The native catalog: who provides which role and which interface, best candidate first. */
module NativeCatalog {
  import opened DependencyGraph
  import opened RuntimePlanModel
  import opened PlanRecords
  import opened PlanFormat
  import opened PlanGraphCheck
  import opened PlanSource
  import opened PlanCompiler
  import opened Characters

  datatype CatalogProvider = CatalogProvider(index: nat, priority: nat, exclusive: bool, preferred: bool, rank: nat)

  datatype Catalog = Catalog(components: map<string, nat>, roles: map<string, seq<CatalogProvider>>,
                             interfaces: map<string, seq<CatalogProvider>>)

  // ---- The order of candidates ----

  /** Preferred by the profile first, in its order; then by priority; then by position in the plan. */
  predicate ProviderLess(a: CatalogProvider, b: CatalogProvider) {
    if a.preferred != b.preferred then a.preferred
    else if a.preferred && a.rank != b.rank then a.rank < b.rank
    else if a.priority != b.priority then a.priority > b.priority
    else a.index < b.index
  }

  ghost predicate Ranked(s: seq<CatalogProvider>) {
    forall i, j :: 0 <= i < j < |s| ==> ProviderLess(s[i], s[j])
  }

  function InsertRanked(s: seq<CatalogProvider>, c: CatalogProvider): (r: seq<CatalogProvider>)
    requires Ranked(s) && forall x :: x in s ==> x.index != c.index
    ensures Ranked(r) && r != [] && forall x :: x in r <==> x in s || x == c
  {
    if s == [] then [c]
    else if ProviderLess(c, s[0]) then [c] + s
    else
      var rest := InsertRanked(s[1..], c);
      assert forall k :: 0 <= k < |rest| ==> rest[k] in s[1..] || rest[k] == c;
      assert s == [s[0]] + s[1..];
      [s[0]] + rest
  }

  // ---- What a catalog lists ----

  /** The providers the profile prefers for a role; none if it does not mention it. */
  function PreferredFor(prefs: seq<RolePreference>, role: string): seq<string> {
    if prefs == [] then [] else if prefs[0].role == role then prefs[0].providers else PreferredFor(prefs[1..], role)
  }

  function CandidateOf(plan: RuntimePlan, i: nat, p: ProvidePlan): (c: CatalogProvider)
    requires i < |plan.components|
    ensures c.index == i
  {
    var preferred := if p.kind == Role then PreferredFor(plan.rolePreferences, p.name) else [];
    var at := Find(preferred, plan.components[i].id);
    CatalogProvider(i, p.priority, p.exclusive, at < |preferred|, if at < |preferred| then at else 0)
  }

  /** Does the `m`-th thing component `j` provides come before the `k`-th of component `i`? */
  ghost predicate Sooner(j: nat, m: nat, i: nat, k: nat) {
    j < i || (j == i && m < k)
  }

  ghost predicate Declared(plan: RuntimePlan, kind: ProvideKind, name: string, j: nat, m: nat) {
    j < |plan.components| && m < |plan.components[j].provided|
    && plan.components[j].provided[m].kind == kind && plan.components[j].provided[m].name == name
  }

  ghost predicate IsCandidate(plan: RuntimePlan, kind: ProvideKind, name: string, c: CatalogProvider, i: nat, k: nat) {
    exists j: nat, m: nat :: Declared(plan, kind, name, j, m) && Sooner(j, m, i, k) &&
      c == CandidateOf(plan, j, plan.components[j].provided[m])
  }

  /** The list holds exactly the providers declared before position (i, k), best first. */
  ghost predicate ListsTo(plan: RuntimePlan, kind: ProvideKind, name: string, list: seq<CatalogProvider>, i: nat,
                          k: nat) {
    Ranked(list) && forall c :: c in list <==> IsCandidate(plan, kind, name, c, i, k)
  }

  /** In a complete list, those the profile prefers come first, in the order it names them; the others follow, higher
      priorities first, and then as in the plan. */
  lemma PreferredFirst(plan: RuntimePlan, kind: ProvideKind, name: string, list: seq<CatalogProvider>, a: nat, b: nat)
    requires ListsTo(plan, kind, name, list, |plan.components|, 0) && a < b < |list|
    ensures list[a].index < |plan.components| && list[b].index < |plan.components|
    ensures var preferred := if kind == Role then PreferredFor(plan.rolePreferences, name) else [];
      var x, y := plan.components[list[a].index].id, plan.components[list[b].index].id;
      if y in preferred then x in preferred && Find(preferred, x) <= Find(preferred, y)
      else x in preferred || list[a].priority > list[b].priority ||
           (list[a].priority == list[b].priority && list[a].index < list[b].index)
  {
    var preferred := if kind == Role then PreferredFor(plan.rolePreferences, name) else [];
    assert IsCandidate(plan, kind, name, list[a], |plan.components|, 0);
    assert IsCandidate(plan, kind, name, list[b], |plan.components|, 0);
    var x, y := plan.components[list[a].index].id, plan.components[list[b].index].id;
    FoundIsIn(preferred, x);
    FoundIsIn(preferred, y);
    assert ProviderLess(list[a], list[b]);
  }

  /** What a candidate says is what its component declares, and where the profile names it. */
  lemma ListedAsDeclared(plan: RuntimePlan, kind: ProvideKind, name: string, list: seq<CatalogProvider>,
                         c: CatalogProvider)
    requires ListsTo(plan, kind, name, list, |plan.components|, 0)
    ensures c in list ==>
      c.index < |plan.components| &&
      ProvidePlan(kind, name, c.exclusive, c.priority) in plan.components[c.index].provided
    ensures c in list ==>
      var preferred := if kind == Role then PreferredFor(plan.rolePreferences, name) else [];
      var id := plan.components[c.index].id;
      (c.preferred <==> id in preferred) && (c.preferred ==> c.rank == Find(preferred, id))
  {
    if c in list {
      var preferred := if kind == Role then PreferredFor(plan.rolePreferences, name) else [];
      assert IsCandidate(plan, kind, name, c, |plan.components|, 0);
      var j: nat, m: nat :| Declared(plan, kind, name, j, m) && Sooner(j, m, |plan.components|, 0) &&
        c == CandidateOf(plan, j, plan.components[j].provided[m]);
      FoundIsIn(preferred, plan.components[c.index].id);
    }
  }

  lemma FoundIsIn(s: seq<string>, x: string)
    ensures x in s <==> Find(s, x) < |s|
  {
    assert s[..|s|] == s;
  }

  function At(m: map<string, seq<CatalogProvider>>, name: string): seq<CatalogProvider> {
    if name in m then m[name] else []
  }

  ghost predicate TableTo(plan: RuntimePlan, kind: ProvideKind, table: map<string, seq<CatalogProvider>>, i: nat,
                          k: nat) {
    && (forall name :: ListsTo(plan, kind, name, At(table, name), i, k))
    && (forall name :: name in table ==> table[name] != [])
  }

  /** Exactly the declared providers, best first. */
  ghost predicate Lists(plan: RuntimePlan, kind: ProvideKind, table: map<string, seq<CatalogProvider>>) {
    TableTo(plan, kind, table, |plan.components|, 0)
  }

  // ---- When the constructor accepts a plan ----

  ghost predicate PreferencesDeclared(plan: RuntimePlan) {
    forall r :: r in plan.rolePreferences ==> PreferenceDeclared(plan, r)
  }

  ghost predicate PreferenceDeclared(plan: RuntimePlan, r: RolePreference) {
    && (exists j: nat, m: nat :: Declared(plan, Role, r.role, j, m))
    && (forall s :: s in r.providers ==> Provides(plan.components, s, r.role))
  }

  ghost predicate CatalogOk(plan: RuntimePlan) {
    && UniqueIds(plan.components)
    && Distinct(RoleNames(plan.rolePreferences))
    && (forall c :: c in plan.components ==> Distinct(Services(c.provided)))
    && PreferencesDeclared(plan)
  }

  lemma WhereProvided(plan: RuntimePlan, id: string, role: string) returns (j: nat, m: nat)
    requires Provides(plan.components, id, role)
    ensures Declared(plan, Role, role, j, m) && plan.components[j].id == id
  {
    var c :| c in plan.components && c.id == id && exists p :: p in c.provided && p.kind == Role && p.name == role;
    var p :| p in c.provided && p.kind == Role && p.name == role;
    j :| 0 <= j < |plan.components| && plan.components[j] == c;
    m :| 0 <= m < |c.provided| && c.provided[m] == p;
  }

  lemma UniqueIndex(cs: seq<ComponentPlan>, j: nat)
    requires UniqueIds(cs) && j < |cs|
    ensures IndexOf(cs, cs[j].id) == Some(j)
  {
    var k := IndexOf(cs, cs[j].id).value;
    assert Ids(cs)[j] == Ids(cs)[k];
  }

  lemma AcceptedPlansHaveCatalogs(plan: RuntimePlan)
    requires PlanOk(plan, true) && PreferencesProvided(plan)
    ensures CatalogOk(plan)
  {
    hide Mapped, Distinct, Provides, ProfileKnown, ComponentOk, PreferenceDeclared, RoleOk;
    forall r | r in plan.rolePreferences ensures PreferenceDeclared(plan, r) {
      assert r in ProfileOf(plan).roles && RoleOk(r);
      AcceptedPreference(plan, r);
    }
    forall c | c in plan.components ensures Distinct(Services(c.provided)) {
      AcceptedServices(c);
    }
    assert UniqueIds(plan.components) && Distinct(RoleNames(ProfileOf(plan).roles));
  }

  lemma AcceptedServices(c: ComponentPlan)
    requires ComponentOk(c, true)
    ensures Distinct(Services(c.provided))
  {
  }

  lemma AcceptedPreference(plan: RuntimePlan, r: RolePreference)
    requires r in plan.rolePreferences && RoleOk(r) && PreferencesProvided(plan)
    ensures PreferenceDeclared(plan, r)
  {
    hide Provides, Declared;
    var j, m := WhereProvided(plan, r.providers[0], r.role);
  }

  /** The catalog never refuses a version 2 plan the compiler has accepted. */
  lemma CompiledPlansHaveCatalogs(doc: SourceDocument)
    requires Normalized(doc).Some? && doc.profile.Some?
    ensures CatalogOk(Normalized(doc).value)
  {
    hide Normalized, PlanOk, PreferencesProvided, CatalogOk;
    NormalizedOk(doc);
    AcceptedPlansHaveCatalogs(Normalized(doc).value);
  }

  // ---- The constructor ----

  lemma CandidateIndex(plan: RuntimePlan, kind: ProvideKind, name: string, list: seq<CatalogProvider>, i: nat, k: nat)
    requires i < |plan.components| && k < |plan.components[i].provided|
    requires Distinct(Services(plan.components[i].provided))
    requires ListsTo(plan, kind, name, list, i, k)
    requires plan.components[i].provided[k].kind == kind && plan.components[i].provided[k].name == name
    ensures forall c :: c in list ==> c.index != i
  {
    var services := Services(plan.components[i].provided);
    assert forall m :: 0 <= m < |services| ==> services[m] == ServiceOf(plan.components[i].provided[m]);
    forall c | c in list ensures c.index != i {
      var j: nat, m: nat :| Declared(plan, kind, name, j, m) && Sooner(j, m, i, k) &&
          c == CandidateOf(plan, j, plan.components[j].provided[m]);
    }
  }

  /** One more declared provider. */
  lemma ListOneMore(plan: RuntimePlan, kind: ProvideKind, name: string, list: seq<CatalogProvider>, i: nat, k: nat)
    requires i < |plan.components| && k < |plan.components[i].provided|
    requires Distinct(Services(plan.components[i].provided))
    requires ListsTo(plan, kind, name, list, i, k)
    ensures var p := plan.components[i].provided[k];
      if p.kind == kind && p.name == name
      then
        && (forall c :: c in list ==> c.index != i)
        && ListsTo(plan, kind, name, InsertRanked(list, CandidateOf(plan, i, p)), i, k + 1)
      else ListsTo(plan, kind, name, list, i, k + 1)
  {
    hide Distinct, Ranked, CandidateOf, Mapped;
    var p := plan.components[i].provided[k];
    var c0 := CandidateOf(plan, i, p);
    var here := p.kind == kind && p.name == name;
    if here {
      CandidateIndex(plan, kind, name, list, i, k);
      assert Declared(plan, kind, name, i, k) && Sooner(i, k, i, k + 1);
    }
    forall c ensures IsCandidate(plan, kind, name, c, i, k + 1) <==>
      IsCandidate(plan, kind, name, c, i, k) || (here && c == c0) {
      if IsCandidate(plan, kind, name, c, i, k) {
        var j: nat, m: nat :| Declared(plan, kind, name, j, m) && Sooner(j, m, i, k) &&
            c == CandidateOf(plan, j, plan.components[j].provided[m]);
        assert Sooner(j, m, i, k + 1);
      }
      if IsCandidate(plan, kind, name, c, i, k + 1) {
        var j: nat, m: nat :| Declared(plan, kind, name, j, m) && Sooner(j, m, i, k + 1) &&
            c == CandidateOf(plan, j, plan.components[j].provided[m]);
        assert Sooner(j, m, i, k) || (j == i && m == k);
      }
    }
  }

  /** Adds a declared provider to a table. */
  method Add(plan: RuntimePlan, kind: ProvideKind, table: map<string, seq<CatalogProvider>>, i: nat, k: nat)
    returns (r: map<string, seq<CatalogProvider>>)
    requires i < |plan.components| && k < |plan.components[i].provided|
    requires Distinct(Services(plan.components[i].provided))
    requires TableTo(plan, kind, table, i, k)
    ensures TableTo(plan, kind, r, i, k + 1)
  {
    hide ListsTo, Distinct, Services, CandidateOf;
    var p := plan.components[i].provided[k];
    r := table;
    forall name ensures
      if p.kind == kind && p.name == name
      then Ranked(At(table, name)) && (forall c :: c in At(table, name) ==> c.index != i)
        && ListsTo(plan, kind, name, InsertRanked(At(table, name), CandidateOf(plan, i, p)), i, k + 1)
      else ListsTo(plan, kind, name, At(table, name), i, k + 1)
    {
      ListOneMore(plan, kind, name, At(table, name), i, k);
      IsRanked(plan, kind, name, At(table, name), i, k);
    }
    if p.kind == kind {
      r := r[p.name := InsertRanked(At(table, p.name), CandidateOf(plan, i, p))];
    }
    forall name ensures ListsTo(plan, kind, name, At(r, name), i, k + 1) {
      assert p.name != name || p.kind != kind ==> At(r, name) == At(table, name);
    }
  }

  lemma IsRanked(plan: RuntimePlan, kind: ProvideKind, name: string, list: seq<CatalogProvider>, i: nat, k: nat)
    requires ListsTo(plan, kind, name, list, i, k)
    ensures Ranked(list)
  {
  }

  lemma NextComponent(plan: RuntimePlan, kind: ProvideKind, table: map<string, seq<CatalogProvider>>, i: nat)
    requires i < |plan.components| && TableTo(plan, kind, table, i, |plan.components[i].provided|)
    ensures TableTo(plan, kind, table, i + 1, 0)
  {
    forall name, c ensures IsCandidate(plan, kind, name, c, i, |plan.components[i].provided|) <==>
      IsCandidate(plan, kind, name, c, i + 1, 0) {
      SameCandidates(plan, kind, name, c, i);
    }
    forall name ensures ListsTo(plan, kind, name, At(table, name), i + 1, 0) {
      assert ListsTo(plan, kind, name, At(table, name), i, |plan.components[i].provided|);
    }
  }

  lemma SameCandidates(plan: RuntimePlan, kind: ProvideKind, name: string, c: CatalogProvider, i: nat)
    requires i < |plan.components|
    ensures IsCandidate(plan, kind, name, c, i, |plan.components[i].provided|) <==>
      IsCandidate(plan, kind, name, c, i + 1, 0)
  {
    var n := |plan.components[i].provided|;
    if IsCandidate(plan, kind, name, c, i, n) {
      var j: nat, m: nat :| Declared(plan, kind, name, j, m) && Sooner(j, m, i, n) &&
          c == CandidateOf(plan, j, plan.components[j].provided[m]);
      assert Sooner(j, m, i + 1, 0);
    }
    if IsCandidate(plan, kind, name, c, i + 1, 0) {
      var j: nat, m: nat :| Declared(plan, kind, name, j, m) && Sooner(j, m, i + 1, 0) &&
          c == CandidateOf(plan, j, plan.components[j].provided[m]);
      assert Sooner(j, m, i, n);
    }
  }

  lemma EmptyTable(plan: RuntimePlan, kind: ProvideKind)
    ensures TableTo(plan, kind, map[], 0, 0)
  {
  }

  /** The tables of roles and interfaces; None if a component provides the same thing twice. */
  method BuildTables(plan: RuntimePlan)
    returns (r: Option<(map<string, seq<CatalogProvider>>, map<string, seq<CatalogProvider>>)>)
    ensures r.Some? <==> forall c :: c in plan.components ==> Distinct(Services(c.provided))
    ensures r.Some? ==> Lists(plan, Role, r.value.0) && Lists(plan, Interface, r.value.1)
  {
    hide TableTo, Distinct, Services;
    var roles: map<string, seq<CatalogProvider>> := map[];
    var interfaces: map<string, seq<CatalogProvider>> := map[];
    EmptyTable(plan, Role);
    EmptyTable(plan, Interface);
    for i := 0 to |plan.components|
      invariant TableTo(plan, Role, roles, i, 0) && TableTo(plan, Interface, interfaces, i, 0)
      invariant forall j :: 0 <= j < i ==> Distinct(Services(plan.components[j].provided))
    {
      var provided := plan.components[i].provided;
      AllDifferentIsDistinct(Services(provided));
      if !AllDifferent(Services(provided)) {
        assert plan.components[i] in plan.components;
        return None;
      }
      for k := 0 to |provided|
        invariant TableTo(plan, Role, roles, i, k) && TableTo(plan, Interface, interfaces, i, k)
      {
        roles := Add(plan, Role, roles, i, k);
        interfaces := Add(plan, Interface, interfaces, i, k);
      }
      NextComponent(plan, Role, roles, i);
      NextComponent(plan, Interface, interfaces, i);
    }
    r := Some((roles, interfaces));
  }

  lemma DeclaredHasList(plan: RuntimePlan, roles: map<string, seq<CatalogProvider>>, name: string)
    requires Lists(plan, Role, roles)
    ensures name in roles <==> exists j: nat, m: nat :: Declared(plan, Role, name, j, m)
  {
    var n := |plan.components|;
    assert ListsTo(plan, Role, name, At(roles, name), n, 0);
    if name in roles {
      var c := roles[name][0];
      assert c in roles[name] && IsCandidate(plan, Role, name, c, n, 0);
    }
    if j: nat, m: nat :| Declared(plan, Role, name, j, m) {
      assert Sooner(j, m, n, 0);
      assert IsCandidate(plan, Role, name, CandidateOf(plan, j, plan.components[j].provided[m]), n, 0);
    }
  }

  lemma ProviderIsListed(plan: RuntimePlan, list: seq<CatalogProvider>, name: string,
                         id: string) returns (c: CatalogProvider)
    requires ListsTo(plan, Role, name, list, |plan.components|, 0) && UniqueIds(plan.components)
    requires Provides(plan.components, id, name)
    ensures c in list && IndexOf(plan.components, id) == Some(c.index)
  {
    hide CandidateOf, Ranked, Provides, UniqueIds;
    var n := |plan.components|;
    var j, m := WhereProvided(plan, id, name);
    UniqueIndex(plan.components, j);
    c := CandidateOf(plan, j, plan.components[j].provided[m]);
    assert Sooner(j, m, n, 0);
    assert IsCandidate(plan, Role, name, c, n, 0);
  }

  lemma ListedProvides(plan: RuntimePlan, list: seq<CatalogProvider>, name: string, c: CatalogProvider)
    requires ListsTo(plan, Role, name, list, |plan.components|, 0) && c in list
    ensures c.index < |plan.components| && Provides(plan.components, plan.components[c.index].id, name)
  {
    hide CandidateOf, Ranked;
    var n := |plan.components|;
    assert IsCandidate(plan, Role, name, c, n, 0);
    var j: nat, m: nat :| Declared(plan, Role, name, j, m) && Sooner(j, m, n, 0) &&
        c == CandidateOf(plan, j, plan.components[j].provided[m]);
    var p := plan.components[j].provided[m];
    assert plan.components[j] in plan.components && p in plan.components[j].provided && p.kind == Role &&
           p.name == name;
  }

  /** A component is among the candidates of a role exactly when it provides it. */
  lemma CandidateProvides(plan: RuntimePlan, roles: map<string, seq<CatalogProvider>>, name: string, id: string)
    requires Lists(plan, Role, roles) && UniqueIds(plan.components)
    ensures Provides(plan.components, id, name) <==>
      var k := IndexOf(plan.components, id); k.Some? && exists c :: c in At(roles, name) && c.index == k.value
  {
    hide ListsTo, Provides, UniqueIds;
    var k := IndexOf(plan.components, id);
    if Provides(plan.components, id, name) {
      var c := ProviderIsListed(plan, At(roles, name), name, id);
    }
    if k.Some? {
      forall c | c in At(roles, name) && c.index == k.value ensures Provides(plan.components, id, name) {
        ListedProvides(plan, At(roles, name), name, c);
      }
    }
  }

  /** Is the preferred role declared, and does each preferred provider provide it? */
  method CheckPreference(plan: RuntimePlan, roles: map<string, seq<CatalogProvider>>,
                         r: RolePreference) returns (ok: bool)
    requires Lists(plan, Role, roles) && UniqueIds(plan.components)
    ensures ok <==> PreferenceDeclared(plan, r)
  {
    hide Lists, UniqueIds, Provides, Declared;
    DeclaredHasList(plan, roles, r.role);
    if r.role !in roles {
      return false;
    }
    for k := 0 to |r.providers|
      invariant forall j :: 0 <= j < k ==> Provides(plan.components, r.providers[j], r.role)
    {
      var s := r.providers[k];
      CandidateProvides(plan, roles, r.role, s);
      var index := IndexOf(plan.components, s);
      if index.None? || !exists c :: c in roles[r.role] && c.index == index.value {
        assert s in r.providers && !Provides(plan.components, s, r.role);
        return false;
      }
    }
    ok := true;
  }

  /** Builds the catalog, or refuses the plan. */
  method BuildCatalog(plan: RuntimePlan) returns (r: Option<Catalog>)
    ensures r.Some? <==> CatalogOk(plan)
    ensures r.Some? ==> Lists(plan, Role, r.value.roles) && Lists(plan, Interface, r.value.interfaces)
    ensures r.Some? ==> forall id :: id in r.value.components <==> IndexOf(plan.components, id).Some?
    ensures r.Some? ==>
      forall id :: id in r.value.components ==> IndexOf(plan.components, id) == Some(r.value.components[id])
  {
    hide Lists, Distinct, Services, RoleNames, PreferenceDeclared;
    var positions := PositionsById(plan.components);
    AllDifferentIsDistinct(RoleNames(plan.rolePreferences));
    if positions.None? || !AllDifferent(RoleNames(plan.rolePreferences)) {
      return None;
    }
    var tables := BuildTables(plan);
    if tables.None? {
      return None;
    }
    for k := 0 to |plan.rolePreferences|
      invariant forall j :: 0 <= j < k ==> PreferenceDeclared(plan, plan.rolePreferences[j])
    {
      var ok := CheckPreference(plan, tables.value.0, plan.rolePreferences[k]);
      if !ok {
        assert plan.rolePreferences[k] in plan.rolePreferences;
        return None;
      }
    }
    r := Some(Catalog(positions.value, tables.value.0, tables.value.1));
  }
}
