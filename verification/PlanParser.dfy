/** The plan parser as it is written: cursors over lines, and loops that read
    counted runs of records. Each method is proved to compute what PlanFormat says. */
module PlanParser {
  import opened DependencyGraph
  import opened RuntimePlanModel
  import opened PlanText
  import opened PlanRecords
  import opened PlanFormat
  import opened PlanGraphCheck

  /** A result with a cursor stands for a result with the lines that follow. */
  ghost predicate Agrees<T(!new)>(r: Option<(T, nat)>, s: Option<(T, seq<string>)>, lines: seq<string>) {
    if s.None? then r.None?
    else r.Some? && r.value.0 == s.value.0 && r.value.1 <= |lines| && s.value.1 == lines[r.value.1..]
  }

  ghost function Prepended<T(!new)>(xs: seq<T>, s: Option<(seq<T>, seq<string>)>): Option<(seq<T>, seq<string>)> {
    if s.None? then None else Some((xs + s.value.0, s.value.1))
  }

  lemma PrependedNone<T(!new)>(s: Option<(seq<T>, seq<string>)>)
    ensures Prepended([], s) == s
  {
    if s.Some? { assert [] + s.value.0 == s.value.0; }
  }

  lemma RecordsStep<T(!new)>(lines: seq<string>, at: nat, n: nat, decode: string -> Option<T>, xs: seq<T>)
    requires at <= |lines|
    ensures n == 0 ==> Prepended(xs, Records(lines[at..], n, decode)) == Some((xs, lines[at..]))
    ensures n > 0 && (at == |lines| || decode(lines[at]).None?) ==> Records(lines[at..], n, decode).None?
    ensures n > 0 && at < |lines| && decode(lines[at]).Some? ==>
      Prepended(xs, Records(lines[at..], n, decode))
      == Prepended(xs + [decode(lines[at]).value], Records(lines[at+1..], n - 1, decode))
  {
    if n == 0 {
      assert xs + [] == xs;
    } else if at < |lines| {
      assert lines[at..][1..] == lines[at+1..] && lines[at..][0] == lines[at];
      var x := decode(lines[at]);
      var rest := Records(lines[at+1..], n - 1, decode);
      if x.Some? && rest.Some? {
        assert xs + ([x.value] + rest.value.0) == xs + [x.value] + rest.value.0;
      }
    }
  }

  /** Reads `n` records. */
  method ReadRecords<T(!new)>(lines: seq<string>, start: nat, n: nat, decode: string -> Option<T>)
    returns (r: Option<(seq<T>, nat)>)
    requires start <= |lines|
    ensures Agrees(r, Records(lines[start..], n, decode), lines)
  {
    hide Records;
    ghost var s := Records(lines[start..], n, decode);
    var items: seq<T> := [];
    PrependedNone(s);
    for k := 0 to n
      invariant start + k <= |lines| && s == Prepended(items, Records(lines[start+k..], n - k, decode))
    {
      RecordsStep(lines, start + k, n - k, decode, items);
      if start + k >= |lines| {
        return None;
      }
      var item := decode(lines[start + k]);
      if item.None? {
        return None;
      }
      items := items + [item.value];
    }
    RecordsStep(lines, start + n, 0, decode, items);
    r := Some((items, start + n));
  }

  /** Reads `n` records with pairwise different keys, remembering the keys seen. */
  method ReadUnique<T(!new), K(==)>(lines: seq<string>, start: nat, n: nat, decode: string -> Option<T>, key: T -> K)
    returns (r: Option<(seq<T>, nat)>)
    requires start <= |lines|
    ensures var s := Records(lines[start..], n, decode);
      Agrees(r, if s.Some? && !Distinct(Mapped(key, s.value.0)) then None else s, lines)
  {
    hide Records, Distinct, Mapped;
    ghost var s := Records(lines[start..], n, decode);
    var items: seq<T> := [];
    var seen: set<K> := {};
    PrependedNone(s);
    NoKeys(key);
    for k := 0 to n
      invariant start + k <= |lines| && s == Prepended(items, Records(lines[start+k..], n - k, decode))
      invariant Distinct(Mapped(key, items)) && seen == Elements(Mapped(key, items))
    {
      RecordsStep(lines, start + k, n - k, decode, items);
      if start + k >= |lines| {
        return None;
      }
      var item := decode(lines[start + k]);
      if item.None? {
        return None;
      }
      OneMoreKey(key, items, item.value);
      if key(item.value) in seen {
        if s.Some? {
          RepeatedStays(key, items + [item.value], Records(lines[start+k+1..], n - k - 1, decode).value.0);
        }
        return None;
      }
      seen := seen + {key(item.value)};
      items := items + [item.value];
    }
    RecordsStep(lines, start + n, 0, decode, items);
    r := Some((items, start + n));
  }

  lemma NoKeys<T(!new), K>(key: T -> K)
    ensures Distinct(Mapped(key, [])) && Elements(Mapped(key, [])) == {}
  {
  }

  lemma {:induction false} MappedConcat<T, U>(f: T -> U, a: seq<T>, b: seq<T>)
    ensures Mapped(f, a + b) == Mapped(f, a) + Mapped(f, b)
  {
  }

  lemma OneMoreKey<T(!new), K>(key: T -> K, items: seq<T>, x: T)
    requires Distinct(Mapped(key, items))
    ensures Distinct(Mapped(key, items + [x])) <==> key(x) !in Elements(Mapped(key, items))
    ensures Elements(Mapped(key, items + [x])) == Elements(Mapped(key, items)) + {key(x)}
  {
    hide Mapped;
    MappedConcat(key, items, [x]);
    var ks := Mapped(key, items);
    assert Mapped(key, [x]) == [key(x)];
    assert Mapped(key, items + [x]) == ks + [key(x)];
    if key(x) in ks {
      var k :| 0 <= k < |ks| && ks[k] == key(x);
      assert (ks + [key(x)])[k] == (ks + [key(x)])[|ks|];
    }
  }

  lemma RepeatedStays<T(!new), K>(key: T -> K, a: seq<T>, b: seq<T>)
    requires !Distinct(Mapped(key, a))
    ensures !Distinct(Mapped(key, a + b))
  {
    hide Mapped;
    MappedConcat(key, a, b);
    var ks := Mapped(key, a);
    var i, j :| 0 <= i < j < |ks| && ks[i] == ks[j];
    assert Mapped(key, a + b)[i] == Mapped(key, a + b)[j];
  }

  lemma MappedItself(xs: seq<string>)
    ensures Mapped(Itself, xs) == xs
  {
  }

  /** The version 2 records of a component. */
  method ParseExtra(lines: seq<string>, start: nat, h: Header, two: bool) returns (r: Option<(Extra, nat)>)
    requires start <= |lines|
    ensures Agrees(r, ExtraAt(lines[start..], h, two), lines)
  {
    hide Records, Distinct, Mapped, DecodeProvide, DecodePermission, DecodePackage, DecodeMetadata, DecodeWindow;
    if !two {
      return Some((NoExtra(h.id), start));
    }
    var provided := ReadUnique(lines, start, h.service.provided, DecodeProvide, ServiceOf);
    if provided.None? {
      return None;
    }
    var permissions := ReadUnique(lines, provided.value.1, h.service.permissions, DecodePermission, Itself);
    if permissions.None? {
      ghost var s := Records(lines[provided.value.1..], h.service.permissions, DecodePermission);
      if s.Some? { MappedItself(s.value.0); }
      return None;
    }
    MappedItself(permissions.value.0);
    var at := permissions.value.1;
    if at + 3 > |lines| {
      return None;
    }
    assert lines[at..][0] == lines[at] && lines[at..][1] == lines[at+1] && lines[at..][2] == lines[at+2] &&
           lines[at..][3..] == lines[at+3..];
    var package := DecodePackage(lines[at]);
    var metadata := DecodeMetadata(lines[at+1]);
    var window := DecodeWindow(lines[at+2]);
    if package.None? || metadata.None? || window.None? {
      return None;
    }
    r := Some((Extra(provided.value.0, permissions.value.0, package.value, metadata.value, window.value), at + 3));
  }

  /** The records after a component's first line, up to and including `end`. */
  method ParseBody(lines: seq<string>, start: nat, h: Header, two: bool) returns (r: Option<(ComponentPlan, nat)>)
    requires start <= |lines|
    ensures Agrees(r, BodyAt(lines[start..], h, two), lines)
  {
    hide Records, Distinct, Mapped, DecodeArg, DecodeId, DecodeEnv, ExtraAt, ServiceOk;
    var argv := ReadRecords(lines, start, h.args, DecodeArg);
    if argv.None? || !Absolute(argv.value.0) {
      return None;
    }
    var after := ReadRecords(lines, argv.value.1, h.deps, DecodeAfter);
    if after.None? {
      return None;
    }
    var env := ReadUnique(lines, after.value.1, h.envs, DecodeComponentEnv, KeyOf);
    if env.None? {
      return None;
    }
    var extra := ParseExtra(lines, env.value.1, h, two);
    if extra.None? {
      return None;
    }
    var at := extra.value.1;
    if at >= |lines| || lines[at] != "end" {
      return None;
    }
    assert lines[at..][0] == lines[at] && lines[at..][1..] == lines[at+1..];
    r := Some((Assemble(h, argv.value.0, after.value.0, env.value.0, extra.value.0), at + 1));
  }

  method ParseComponent(lines: seq<string>, start: nat, two: bool) returns (r: Option<(ComponentPlan, nat)>)
    requires start < |lines|
    ensures Agrees(r, ComponentAt(lines[start..], two), lines)
  {
    hide BodyAt, DecodeHeader;
    assert lines[start..][0] == lines[start] && lines[start..][1..] == lines[start+1..];
    var h := DecodeHeader(lines[start], two);
    if h.None? {
      return None;
    }
    r := ParseBody(lines, start + 1, h.value, two);
  }

  ghost function Followed(xs: seq<ComponentPlan>, s: Option<seq<ComponentPlan>>): Option<seq<ComponentPlan>> {
    if s.None? then None else Some(xs + s.value)
  }

  lemma ComponentsStep(lines: seq<string>, two: bool, room: nat, xs: seq<ComponentPlan>)
    ensures lines == [] ==> Followed(xs, ComponentsAt(lines, two, room)) == Some(xs)
    ensures lines != [] && (room == 0 || ComponentAt(lines, two).None?) ==> ComponentsAt(lines, two, room).None?
    ensures lines != [] && room > 0 && ComponentAt(lines, two).Some? ==>
      var c := ComponentAt(lines, two).value;
      Followed(xs, ComponentsAt(lines, two, room)) == Followed(xs + [c.0], ComponentsAt(c.1, two, room - 1))
  {
    hide ComponentAt;
    if lines == [] {
      assert xs + [] == xs;
    } else if room > 0 && ComponentAt(lines, two).Some? {
      var c := ComponentAt(lines, two).value;
      var rest := ComponentsAt(c.1, two, room - 1);
      if rest.Some? {
        assert xs + ([c.0] + rest.value) == xs + [c.0] + rest.value;
      }
    }
  }

  /** Reads components to the end of the text, at most 64. */
  method ParseComponents(lines: seq<string>, start: nat, two: bool) returns (r: Option<seq<ComponentPlan>>)
    requires start <= |lines|
    ensures r == ComponentsAt(lines[start..], two, MAX_COMPONENTS)
  {
    hide ComponentAt, ComponentsAt;
    ghost var s := ComponentsAt(lines[start..], two, MAX_COMPONENTS);
    var components: seq<ComponentPlan> := [];
    var at: nat := start;
    assert s == Followed([], s) by {
      if s.Some? { assert [] + s.value == s.value; }
    }
    while at < |lines|
      invariant at <= |lines| && |components| <= MAX_COMPONENTS
      invariant s == Followed(components, ComponentsAt(lines[at..], two, MAX_COMPONENTS - |components|))
      decreases |lines| - at
    {
      ComponentsStep(lines[at..], two, MAX_COMPONENTS - |components|, components);
      if |components| >= MAX_COMPONENTS {
        return None;
      }
      var c := ParseComponent(lines, at, two);
      if c.None? {
        return None;
      }
      components := components + [c.value.0];
      assert |lines[c.value.1..]| < |lines[at..]|;
      at := c.value.1;
    }
    assert lines[at..] == [];
    ComponentsStep([], two, MAX_COMPONENTS - |components|, components);
    r := Some(components);
  }

  method ParseRole(lines: seq<string>, start: nat) returns (r: Option<(RolePreference, nat)>)
    requires start <= |lines|
    ensures Agrees(r, RoleAt(lines[start..]), lines)
  {
    hide Records, Distinct, Mapped, DecodeRole, DecodeId;
    if start == |lines| {
      return None;
    }
    assert lines[start..][0] == lines[start] && lines[start..][1..] == lines[start+1..];
    var role := DecodeRole(lines[start]);
    if role.None? {
      return None;
    }
    ghost var s := Records(lines[start+1..], role.value.1, DecodeProvider);
    if s.Some? { MappedItself(s.value.0); }
    var providers := ReadUnique(lines, start + 1, role.value.1, DecodeProvider, Itself);
    if providers.None? {
      return None;
    }
    r := Some((RolePreference(role.value.0, providers.value.0), providers.value.1));
  }

  lemma RolesStep(lines: seq<string>, n: nat, xs: seq<RolePreference>)
    ensures n == 0 ==> Prepended(xs, RolesAt(lines, n)) == Some((xs, lines))
    ensures n > 0 && RoleAt(lines).None? ==> RolesAt(lines, n).None?
    ensures n > 0 && RoleAt(lines).Some? ==>
      var c := RoleAt(lines).value; Prepended(xs, RolesAt(lines, n)) == Prepended(xs + [c.0], RolesAt(c.1, n - 1))
  {
    hide RoleAt;
    if n == 0 {
      assert xs + [] == xs;
    } else if RoleAt(lines).Some? {
      var c := RoleAt(lines).value;
      var rest := RolesAt(c.1, n - 1);
      if rest.Some? {
        assert xs + ([c.0] + rest.value.0) == xs + [c.0] + rest.value.0;
      }
    }
  }

  /** Reads `n` roles with different names, each with its preferred providers. */
  method ParseRoles(lines: seq<string>, start: nat, n: nat) returns (r: Option<(seq<RolePreference>, nat)>)
    requires start <= |lines|
    ensures var s := RolesAt(lines[start..], n);
      Agrees(r, if s.Some? && !Distinct(RoleNames(s.value.0)) then None else s, lines)
  {
    hide RolesAt, RoleAt, Distinct, Mapped;
    ghost var s := RolesAt(lines[start..], n);
    var roles: seq<RolePreference> := [];
    var names: set<string> := {};
    var at: nat := start;
    PrependedNone(s);
    NoKeys(RoleNameOf);
    for k := 0 to n
      invariant at <= |lines| && s == Prepended(roles, RolesAt(lines[at..], n - k))
      invariant Distinct(RoleNames(roles)) && names == Elements(RoleNames(roles))
    {
      RolesStep(lines[at..], n - k, roles);
      var role := ParseRole(lines, at);
      if role.None? {
        return None;
      }
      var preference := role.value.0;
      OneMoreKey(RoleNameOf, roles, preference);
      if preference.role in names {
        if s.Some? {
          RepeatedStays(RoleNameOf, roles + [preference], RolesAt(lines[role.value.1..], n - k - 1).value.0);
        }
        return None;
      }
      names := names + {preference.role};
      roles := roles + [preference];
      at := role.value.1;
    }
    RolesStep(lines[at..], 0, roles);
    r := Some((roles, at));
  }

  method ParseProfile(lines: seq<string>, start: nat, two: bool) returns (r: Option<(Profile, nat)>)
    requires start <= |lines|
    ensures Agrees(r, ProfileAt(lines[start..], two), lines)
  {
    hide Records, RolesAt, Distinct, Mapped, DecodeProfile, DecodeId, DecodeEnv;
    if !two {
      return Some((NO_PROFILE, start));
    }
    if start == |lines| {
      return None;
    }
    assert lines[start..][0] == lines[start] && lines[start..][1..] == lines[start+1..];
    var header := DecodeProfile(lines[start]);
    if header.None? {
      return None;
    }
    var h := header.value;
    var roles := ParseRoles(lines, start + 1, h.roles);
    if roles.None? {
      return None;
    }
    var env := ReadUnique(lines, roles.value.1, h.envs, DecodeProfileEnv, KeyOf);
    if env.None? {
      return None;
    }
    ghost var s := Records(lines[env.value.1..], h.startups, DecodeStartup);
    if s.Some? { MappedItself(s.value.0); }
    var startup := ReadUnique(lines, env.value.1, h.startups, DecodeStartup, Itself);
    if startup.None? {
      return None;
    }
    r := Some((Profile(h.id, h.display, roles.value.0, env.value.0, startup.value.0), startup.value.1));
  }

  /** Does every component the profile names exist? */
  method CheckProfile(plan: RuntimePlan) returns (ok: bool)
    ensures ok <==> ProfileKnown(plan)
  {
    var known := set c | c in plan.components :: c.id;
    assert forall s :: s in known <==> s in Ids(plan.components) by {
      forall s | s in Ids(plan.components) ensures s in known {
        var k :| 0 <= k < |plan.components| && Ids(plan.components)[k] == s;
        assert plan.components[k] in plan.components;
      }
      forall s | s in known ensures s in Ids(plan.components) {
        var c :| c in plan.components && c.id == s;
        var k :| 0 <= k < |plan.components| && plan.components[k] == c;
        assert Ids(plan.components)[k] == s;
      }
    }
    ok := (forall s :: s in plan.startup ==> s in known)
       && (forall r :: r in plan.rolePreferences ==> forall s :: s in r.providers ==> s in known);
  }

  /** The whole parser. */
  method ParseRuntimePlan(text: string) returns (r: Option<RuntimePlan>)
    ensures r == ParsePlan(text)
  {
    hide GoodLines, LinesOf, DecodeGrace, ProfileAt, ComponentsAt, WellOrdered, ProfileKnown;
    if |text| > MAX_PLAN_BYTES {
      return None;
    }
    var split := SplitLines(text);
    if split.None? {
      return None;
    }
    var lines := split.value;
    if |lines| < 3 || (lines[0] != HEADER_V2 && lines[0] != HEADER_V1) {
      return None;
    }
    var two := lines[0] == HEADER_V2;
    var grace := DecodeGrace(lines[1]);
    if grace.None? {
      return None;
    }
    var profile := ParseProfile(lines, 2, two);
    if profile.None? {
      return None;
    }
    var components := ParseComponents(lines, profile.value.1, two);
    if components.None? {
      return None;
    }
    var plan := PlanOf(grace.value, profile.value.0, components.value);
    var error := ValidateGraph(plan.components);
    if error.Some? {
      return None;
    }
    if two {
      var known := CheckProfile(plan);
      if !known {
        return None;
      }
    }
    r := Some(plan);
  }
}
