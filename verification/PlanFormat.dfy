/** The plan format as a whole: the text of a plan, and the plan a text stands for.

    `PlanText` writes a plan as the compiler does and `ParsePlan` says what the
    parser accepts and returns; the parser's loops are proved equal to it in the
    module PlanParser. The main result here is that reading inverts writing. */
module PlanFormat {
  import opened DependencyGraph
  import opened RuntimePlanModel
  import opened PlanText
  import opened PlanRecords
  import opened PlanGraphCheck

  const HEADER_V1 := "MSYS_NATIVE_LITE_PLAN\t1"
  const HEADER_V2 := "MSYS_NATIVE_LITE_PLAN\t2"
  const MAX_PLAN_BYTES := 1048576

  // ---- Runs of records ----

  function Mapped<T, U>(f: T -> U, xs: seq<T>): (r: seq<U>)
    ensures |r| == |xs| && forall k :: 0 <= k < |xs| ==> r[k] == f(xs[k])
  {
    if xs == [] then [] else [f(xs[0])] + Mapped(f, xs[1..])
  }

  /** The first `n` lines, read one by one; and the lines that follow. */
  function Records<T>(lines: seq<string>, n: nat, decode: string -> Option<T>): (r: Option<(seq<T>, seq<string>)>)
    ensures r.Some? ==> |r.value.0| == n && |r.value.1| + n == |lines|
  {
    if n == 0 then Some(([], lines))
    else if lines == [] then None
    else
      var x :- decode(lines[0]);
      var r :- Records(lines[1..], n - 1, decode);
      Some(([x] + r.0, r.1))
  }

  /** Lines that were written from values read back as those values. */
  lemma {:induction false} RecordsReadBack<T>(xs: seq<T>, written: seq<string>, rest: seq<string>,
                                              decode: string -> Option<T>)
    requires |written| == |xs| && forall k :: 0 <= k < |xs| ==> decode(written[k]) == Some(xs[k])
    ensures Records(written + rest, |xs|, decode) == Some((xs, rest))
  {
    if xs == [] {
      assert written + rest == rest;
    } else {
      var lines := written + rest;
      assert lines[1..] == written[1..] + rest;
      assert forall k :: 0 <= k < |xs| - 1 ==> written[1..][k] == written[k+1] && xs[1..][k] == xs[k+1];
      RecordsReadBack(xs[1..], written[1..], rest, decode);
      assert [xs[0]] + xs[1..] == xs;
    }
  }

  function DecodeAfter(line: string): Option<string> { DecodeId("after", line) }
  function DecodeProvider(line: string): Option<string> { DecodeId("provider", line) }
  function DecodeStartup(line: string): Option<string> { DecodeId("startup", line) }
  function DecodeComponentEnv(line: string): Option<(string, string)> { DecodeEnv("env", line) }
  function DecodeProfileEnv(line: string): Option<(string, string)> { DecodeEnv("profile-env", line) }

  function KeyOf(e: (string, string)): string { e.0 }
  function ServiceOf(p: ProvidePlan): (ProvideKind, string) { (p.kind, p.name) }
  function RoleNameOf(r: RolePreference): string { r.role }
  function Itself(s: string): string { s }

  function Keys(env: seq<(string, string)>): seq<string> { Mapped(KeyOf, env) }
  function Services(provided: seq<ProvidePlan>): seq<(ProvideKind, string)> { Mapped(ServiceOf, provided) }
  function RoleNames(roles: seq<RolePreference>): seq<string> { Mapped(RoleNameOf, roles) }

  // ---- Components ----

  /** The version 2 part of a component. */
  datatype Extra = Extra(provided: seq<ProvidePlan>, permissions: seq<string>, package: PackagePlan,
                         metadata: Metadata, window: WindowPlan)

  const NO_PACKAGE := PackagePlan("", "", "", "")
  const NO_WINDOW := WindowPlan("", "", "", "", "", "", "")

  /** What a version 1 component has instead. */
  function NoExtra(id: string): Extra {
    Extra([], [], NO_PACKAGE, Metadata(id, "", ""), NO_WINDOW)
  }

  function Assemble(h: Header, argv: seq<string>, after: seq<string>, env: seq<(string, string)>,
                    x: Extra): ComponentPlan {
    ComponentPlan(h.id, h.kind, h.critical, h.restart, h.readiness, h.timeoutMs, h.initialMs, h.maxMs, h.limit,
                  h.service.lifecycle, h.service.idleMs, h.service.launchable, argv, after, env,
                  x.provided, x.permissions, x.package, x.metadata.name, x.metadata.summary, x.metadata.icon, x.window)
  }

  function HeaderOf(c: ComponentPlan): Header {
    Header(c.id, c.kind, c.critical, c.restart, c.readiness, c.readinessTimeoutMs, c.backoffInitialMs, c.backoffMaxMs,
           c.restartLimit, |c.argv|, |c.after|, |c.environment|,
           Service(c.lifecycle, c.idleTimeoutMs, |c.provided|, |c.permissions|, c.launchable))
  }

  function ExtraOf(c: ComponentPlan): Extra {
    Extra(c.provided, c.permissions, c.package, Metadata(c.name, c.summary, c.icon), c.window)
  }

  predicate Absolute(argv: seq<string>) {
    argv != [] && argv[0] != "" && argv[0][0] == '/'
  }

  ghost function ExtraAt(lines: seq<string>, h: Header, two: bool): (r: Option<(Extra, seq<string>)>)
    ensures r.Some? ==> |r.value.1| <= |lines|
  {
    if !two then Some((NoExtra(h.id), lines))
    else
      var provided :- Records(lines, h.service.provided, DecodeProvide);
      var permissions :- Records(provided.1, h.service.permissions, DecodePermission);
      var rest := permissions.1;
      if !Distinct(Services(provided.0)) || !Distinct(permissions.0) || |rest| < 3 then None
      else
        var package :- DecodePackage(rest[0]);
        var metadata :- DecodeMetadata(rest[1]);
        var window :- DecodeWindow(rest[2]);
        Some((Extra(provided.0, permissions.0, package, metadata, window), rest[3..]))
  }

  ghost function BodyAt(lines: seq<string>, h: Header, two: bool): (r: Option<(ComponentPlan, seq<string>)>)
    ensures r.Some? ==> |r.value.1| < |lines|
  {
    var argv :- Records(lines, h.args, DecodeArg);
    var after :- Records(argv.1, h.deps, DecodeAfter);
    var env :- Records(after.1, h.envs, DecodeComponentEnv);
    var extra :- ExtraAt(env.1, h, two);
    var rest := extra.1;
    if !Absolute(argv.0) || !Distinct(Keys(env.0)) || rest == [] || rest[0] != "end" then None
    else Some((Assemble(h, argv.0, after.0, env.0, extra.0), rest[1..]))
  }

  ghost function ComponentAt(lines: seq<string>, two: bool): (r: Option<(ComponentPlan, seq<string>)>)
    ensures r.Some? ==> |r.value.1| < |lines|
  {
    if lines == [] then None
    else
      var h :- DecodeHeader(lines[0], two);
      BodyAt(lines[1..], h, two)
  }

  /** All remaining lines as components, `room` of them at most. */
  ghost function ComponentsAt(lines: seq<string>, two: bool, room: nat): Option<seq<ComponentPlan>>
    decreases |lines|
  {
    if lines == [] then Some([])
    else if room == 0 then None
    else
      var c :- ComponentAt(lines, two);
      var rest :- ComponentsAt(c.1, two, room - 1);
      Some([c.0] + rest)
  }

  // ---- Profiles ----

  datatype Profile = Profile(id: string, display: string, roles: seq<RolePreference>,
                             environment: seq<(string, string)>, startup: seq<string>)

  const NO_PROFILE := Profile("", "", [], [], [])

  ghost function RoleAt(lines: seq<string>): (r: Option<(RolePreference, seq<string>)>)
    ensures r.Some? ==> |r.value.1| < |lines|
  {
    if lines == [] then None
    else
      var role :- DecodeRole(lines[0]);
      var providers :- Records(lines[1..], role.1, DecodeProvider);
      if !Distinct(providers.0) then None
      else Some((RolePreference(role.0, providers.0), providers.1))
  }

  ghost function RolesAt(lines: seq<string>, n: nat): (r: Option<(seq<RolePreference>, seq<string>)>)
    ensures r.Some? ==> |r.value.0| == n && |r.value.1| <= |lines|
    decreases n
  {
    if n == 0 then Some(([], lines))
    else
      var role :- RoleAt(lines);
      var rest :- RolesAt(role.1, n - 1);
      Some(([role.0] + rest.0, rest.1))
  }

  ghost function ProfileAt(lines: seq<string>, two: bool): (r: Option<(Profile, seq<string>)>)
    ensures r.Some? ==> |r.value.1| <= |lines|
  {
    if !two then Some((NO_PROFILE, lines))
    else if lines == [] then None
    else
      var h :- DecodeProfile(lines[0]);
      var roles :- RolesAt(lines[1..], h.roles);
      var env :- Records(roles.1, h.envs, DecodeProfileEnv);
      var startup :- Records(env.1, h.startups, DecodeStartup);
      if !Distinct(RoleNames(roles.0)) || !Distinct(Keys(env.0)) || !Distinct(startup.0) then None
      else Some((Profile(h.id, h.display, roles.0, env.0, startup.0), startup.1))
  }

  // ---- Plans ----

  function PlanOf(grace: nat, profile: Profile, cs: seq<ComponentPlan>): RuntimePlan {
    RuntimePlan(grace, profile.id, profile.display, profile.environment, profile.startup, profile.roles, cs)
  }

  function ProfileOf(p: RuntimePlan): Profile {
    Profile(p.profileId, p.display, p.rolePreferences, p.profileEnvironment, p.startup)
  }

  /** Every component the profile names exists. */
  ghost predicate ProfileKnown(p: RuntimePlan) {
    && (forall s :: s in p.startup ==> s in Ids(p.components))
    && (forall r, s :: r in p.rolePreferences && s in r.providers ==> s in Ids(p.components))
  }

  ghost function PlanOfLines(lines: seq<string>): Option<RuntimePlan> {
    if |lines| < 3 || (lines[0] != HEADER_V1 && lines[0] != HEADER_V2) then None
    else
      var two := lines[0] == HEADER_V2;
      var grace :- DecodeGrace(lines[1]);
      var profile :- ProfileAt(lines[2..], two);
      var cs :- ComponentsAt(profile.1, two, MAX_COMPONENTS);
      var plan := PlanOf(grace, profile.0, cs);
      if !WellOrdered(cs) || (two && !ProfileKnown(plan)) then None else Some(plan)
  }

  /** The plan a text stands for, if any. */
  ghost function ParsePlan(text: string): Option<RuntimePlan> {
    if |text| > MAX_PLAN_BYTES || !GoodLines(LinesOf(text)) then None else PlanOfLines(LinesOf(text))
  }

  // ---- What the compiler guarantees about a plan ----

  predicate ExtraOk(c: ComponentPlan) {
    && (forall p :: p in c.provided ==> ProvideOk(p))
    && (forall s :: s in c.permissions ==> PermissionOk(s))
    && PackageOk(c.package) && MetadataOk(Metadata(c.name, c.summary, c.icon)) && WindowOk(c.window)
  }

  ghost predicate ComponentOk(c: ComponentPlan, two: bool) {
    && HeaderOk(HeaderOf(c)) && Absolute(c.argv)
    && (forall a :: a in c.argv ==> TextOk(a, 4096))
    && (forall d :: d in c.after ==> ValidId(d))
    && (forall e :: e in c.environment ==> EnvOk(e)) && Distinct(Keys(c.environment))
    && (if two then ExtraOk(c) && Distinct(Services(c.provided)) && Distinct(c.permissions)
        else HeaderOf(c).service == NO_SERVICE && ExtraOf(c) == NoExtra(c.id))
  }

  ghost predicate RoleOk(r: RolePreference) {
    ValidId(r.role) && 1 <= |r.providers| <= 64 && (forall s :: s in r.providers ==> ValidId(s)) &&
      Distinct(r.providers)
  }

  function ProfileHeaderOf(p: Profile): ProfileHeader {
    ProfileHeader(p.id, p.display, |p.roles|, |p.environment|, |p.startup|)
  }

  ghost predicate ProfileFine(p: Profile) {
    && ProfileOk(ProfileHeaderOf(p))
    && (forall r :: r in p.roles ==> RoleOk(r)) && Distinct(RoleNames(p.roles))
    && (forall e :: e in p.environment ==> EnvOk(e)) && Distinct(Keys(p.environment))
    && (forall s :: s in p.startup ==> ValidId(s)) && Distinct(p.startup)
  }

  ghost predicate PlanOk(p: RuntimePlan, two: bool) {
    && 100 <= p.stopGraceMs <= 60_000
    && (if two then ProfileFine(ProfileOf(p)) && ProfileKnown(p) else ProfileOf(p) == NO_PROFILE)
    && 1 <= |p.components| <= MAX_COMPONENTS
    && (forall c :: c in p.components ==> ComponentOk(c, two))
    && WellOrdered(p.components)
  }

  // ---- The text of a plan ----

  function AfterLine(id: string): string { IdLine("after", id) }
  function ProviderLine(id: string): string { IdLine("provider", id) }
  function StartupLine(id: string): string { IdLine("startup", id) }
  function ComponentEnvLine(e: (string, string)): string { EnvLine("env", e) }
  function ProfileEnvLine(e: (string, string)): string { EnvLine("profile-env", e) }

  function ExtraLines(x: Extra, two: bool): seq<string> {
    if !two then []
    else Mapped(ProvideLine, x.provided) + (Mapped(PermissionLine, x.permissions)
         + [PackageLine(x.package), MetadataLine(x.metadata), WindowLine(x.window)])
  }

  function BodyLines(c: ComponentPlan, two: bool): seq<string> {
    Mapped(ArgLine, c.argv) + (Mapped(AfterLine, c.after) + (Mapped(ComponentEnvLine, c.environment)
      + (ExtraLines(ExtraOf(c), two) + ["end"])))
  }

  function ComponentLines(c: ComponentPlan, two: bool): seq<string> {
    [HeaderLine(HeaderOf(c), two)] + BodyLines(c, two)
  }

  function AllComponentLines(cs: seq<ComponentPlan>, two: bool): seq<string> {
    if cs == [] then [] else ComponentLines(cs[0], two) + AllComponentLines(cs[1..], two)
  }

  function RoleLines(r: RolePreference): seq<string> {
    [RoleLine(r.role, |r.providers|)] + Mapped(ProviderLine, r.providers)
  }

  function AllRoleLines(roles: seq<RolePreference>): seq<string> {
    if roles == [] then [] else RoleLines(roles[0]) + AllRoleLines(roles[1..])
  }

  function ProfileLines(p: Profile, two: bool): seq<string> {
    if !two then []
    else [ProfileLine(ProfileHeaderOf(p))]
         + (AllRoleLines(p.roles) + (Mapped(ProfileEnvLine, p.environment) + Mapped(StartupLine, p.startup)))
  }

  function PlanLines(p: RuntimePlan, two: bool): seq<string> {
    [if two then HEADER_V2 else HEADER_V1, GraceLine(p.stopGraceMs)]
      + (ProfileLines(ProfileOf(p), two) + AllComponentLines(p.components, two))
  }

  function TextOfPlan(p: RuntimePlan, two: bool): string {
    Unlines(PlanLines(p, two))
  }

  // ---- Every line is one line ----

  ghost predicate AllGood(lines: seq<string>) {
    forall l :: l in lines ==> Good(l)
  }

  lemma GoodMapped<T>(f: T -> string, xs: seq<T>)
    requires forall x :: x in xs ==> Good(f(x))
    ensures AllGood(Mapped(f, xs))
  {
    forall l | l in Mapped(f, xs) ensures Good(l) {
      var k :| 0 <= k < |xs| && Mapped(f, xs)[k] == l;
      assert xs[k] in xs;
    }
  }

  // ---- Reading inverts writing ----

  lemma MappedReadsBack<T>(f: T -> string, xs: seq<T>, rest: seq<string>, decode: string -> Option<T>)
    requires forall x :: x in xs ==> decode(f(x)) == Some(x)
    ensures Records(Mapped(f, xs) + rest, |xs|, decode) == Some((xs, rest))
  {
    forall k | 0 <= k < |xs| ensures decode(Mapped(f, xs)[k]) == Some(xs[k]) {
      assert xs[k] in xs;
    }
    RecordsReadBack(xs, Mapped(f, xs), rest, decode);
  }

  lemma ExtraReadsBack(c: ComponentPlan, two: bool, rest: seq<string>)
    requires ComponentOk(c, two)
    ensures ExtraAt(ExtraLines(ExtraOf(c), two) + rest, HeaderOf(c), two) == Some((ExtraOf(c), rest))
    ensures AllGood(ExtraLines(ExtraOf(c), two))
  {
    hide Records, ProvideOk, PermissionOk, PackageOk, MetadataOk, WindowOk, ProvideLine, PermissionLine, PackageLine,
         MetadataLine, WindowLine, DecodeProvide, DecodePermission, DecodePackage, DecodeMetadata, DecodeWindow, Good,
         HeaderOk, Mapped;
    if !two {
      assert [] + rest == rest;
      return;
    }
    var x := ExtraOf(c);
    forall p | p in x.provided ensures
      DecodeProvide(ProvideLine(p)) == Some(p) && Good(ProvideLine(p)) { ProvideReadsBack(p); }
    forall s | s in x.permissions ensures
      DecodePermission(PermissionLine(s)) == Some(s) && Good(PermissionLine(s)) { PermissionReadsBack(s); }
    PackageReadsBack(x.package);
    MetadataReadsBack(x.metadata);
    WindowReadsBack(x.window);
    var last := [PackageLine(x.package), MetadataLine(x.metadata), WindowLine(x.window)];
    MappedReadsBack(ProvideLine, x.provided, Mapped(PermissionLine, x.permissions) + (last + rest), DecodeProvide);
    MappedReadsBack(PermissionLine, x.permissions, last + rest, DecodePermission);
    assert ExtraLines(x, two) + rest == Mapped(ProvideLine, x.provided) +
      (Mapped(PermissionLine, x.permissions) + (last + rest));
    assert (last + rest)[3..] == rest;
    GoodMapped(ProvideLine, x.provided);
    GoodMapped(PermissionLine, x.permissions);
  }

  lemma BodyReadsBack(c: ComponentPlan, two: bool, rest: seq<string>)
    requires ComponentOk(c, two)
    ensures var h := HeaderOf(c); var lines := BodyLines(c, two) + rest;
      exists l1, l2, l3 ::
        && Records(lines, h.args, DecodeArg) == Some((c.argv, l1))
        && Records(l1, h.deps, DecodeAfter) == Some((c.after, l2))
        && Records(l2, h.envs, DecodeComponentEnv) == Some((c.environment, l3))
        && ExtraAt(l3, h, two) == Some((ExtraOf(c), ["end"] + rest))
    ensures AllGood(BodyLines(c, two))
  {
    hide Records, ArgLine, IdLine, EnvLine, DecodeArg, DecodeId, DecodeEnv, ExtraAt, ExtraLines, Good, TextOk,
         ValidId, EnvOk, HeaderOk, Mapped, ExtraOk, Distinct;
    forall a | a in c.argv ensures DecodeArg(ArgLine(a)) == Some(a) && Good(ArgLine(a)) { ArgReadsBack(a); }
    TagsAreIds();
    forall d | d in c.after ensures
      DecodeAfter(AfterLine(d)) == Some(d) && Good(AfterLine(d)) { IdReadsBack("after", d); }
    forall e | e in c.environment ensures
      DecodeComponentEnv(ComponentEnvLine(e)) == Some(e) && Good(ComponentEnvLine(e)) {
      EnvReadsBack("env", e);
    }
    var l3 := ExtraLines(ExtraOf(c), two) + (["end"] + rest);
    var l2 := Mapped(ComponentEnvLine, c.environment) + l3;
    var l1 := Mapped(AfterLine, c.after) + l2;
    ExtraReadsBack(c, two, ["end"] + rest);
    MappedReadsBack(ComponentEnvLine, c.environment, l3, DecodeComponentEnv);
    MappedReadsBack(AfterLine, c.after, l2, DecodeAfter);
    MappedReadsBack(ArgLine, c.argv, l1, DecodeArg);
    assert BodyLines(c, two) + rest == Mapped(ArgLine, c.argv) + l1;
    GoodMapped(ArgLine, c.argv);
    GoodMapped(AfterLine, c.after);
    GoodMapped(ComponentEnvLine, c.environment);
    EndIsGood();
  }

  lemma EndIsGood()
    ensures AllGood(["end"])
  {
  }

  lemma TagsAreIds()
    ensures ValidId("after") && ValidId("provider") && ValidId("startup") && ValidId("env") && ValidId("profile-env")
  {
  }

  lemma ComponentReadsBack(c: ComponentPlan, two: bool, rest: seq<string>)
    requires ComponentOk(c, two)
    ensures ComponentAt(ComponentLines(c, two) + rest, two) == Some((c, rest))
    ensures AllGood(ComponentLines(c, two))
  {
    hide Records, ExtraAt, HeaderLine, DecodeHeader, Good, BodyLines, HeaderOk, ExtraOk, Distinct;
    var h, lines := HeaderOf(c), ComponentLines(c, two) + rest;
    HeaderReadsBack(h, two);
    BodyReadsBack(c, two, rest);
    assert lines[1..] == BodyLines(c, two) + rest;
    assert Assemble(h, c.argv, c.after, c.environment, ExtraOf(c)) == c;
    assert (["end"] + rest)[1..] == rest;
  }

  lemma {:induction false} ComponentsReadBack(cs: seq<ComponentPlan>, two: bool, room: nat)
    requires |cs| <= room && forall c :: c in cs ==> ComponentOk(c, two)
    ensures ComponentsAt(AllComponentLines(cs, two), two, room) == Some(cs)
    ensures AllGood(AllComponentLines(cs, two))
  {
    hide ComponentAt, ComponentOk, ComponentLines, Good;
    if cs != [] {
      assert cs[0] in cs;
      var rest := AllComponentLines(cs[1..], two);
      ComponentReadsBack(cs[0], two, rest);
      ComponentsReadBack(cs[1..], two, room - 1);
      assert [cs[0]] + cs[1..] == cs;
    }
  }

  lemma RoleReadsBackAt(r: RolePreference, rest: seq<string>)
    requires RoleOk(r)
    ensures RoleAt(RoleLines(r) + rest) == Some((r, rest)) && AllGood(RoleLines(r))
  {
    hide Records, RoleLine, DecodeRole, Good, ValidId, IdLine, DecodeId, Mapped, Distinct;
    RoleReadsBack(r.role, |r.providers|);
    TagsAreIds();
    forall s | s in r.providers ensures
      DecodeProvider(ProviderLine(s)) == Some(s) && Good(ProviderLine(s)) { IdReadsBack("provider", s); }
    MappedReadsBack(ProviderLine, r.providers, rest, DecodeProvider);
    GoodMapped(ProviderLine, r.providers);
    assert (RoleLines(r) + rest)[1..] == Mapped(ProviderLine, r.providers) + rest;
  }

  lemma {:induction false} RolesReadBack(roles: seq<RolePreference>, rest: seq<string>)
    requires forall r :: r in roles ==> RoleOk(r)
    ensures RolesAt(AllRoleLines(roles) + rest, |roles|) == Some((roles, rest)) && AllGood(AllRoleLines(roles))
  {
    hide RoleAt, RoleLines, RoleOk, Good;
    if roles == [] {
      assert [] + rest == rest;
    } else {
      assert roles[0] in roles;
      var more := AllRoleLines(roles[1..]) + rest;
      RoleReadsBackAt(roles[0], more);
      RolesReadBack(roles[1..], rest);
      assert AllRoleLines(roles) + rest == RoleLines(roles[0]) + more;
      assert [roles[0]] + roles[1..] == roles;
    }
  }

  lemma ProfileReadsBackAt(p: Profile, two: bool, rest: seq<string>)
    requires if two then ProfileFine(p) else p == NO_PROFILE
    ensures ProfileAt(ProfileLines(p, two) + rest, two) == Some((p, rest)) && AllGood(ProfileLines(p, two))
  {
    hide Records, RolesAt, AllRoleLines, ProfileLine, DecodeProfile, Good, ValidId, EnvOk, RoleOk, ProfileOk,
         Distinct, Mapped, DecodeId, IdLine, DecodeEnv, EnvLine;
    if !two {
      assert [] + rest == rest;
      return;
    }
    var h := ProfileHeaderOf(p);
    ProfileReadsBack(h);
    TagsAreIds();
    forall e | e in p.environment ensures
      DecodeProfileEnv(ProfileEnvLine(e)) == Some(e) && Good(ProfileEnvLine(e)) { EnvReadsBack("profile-env", e); }
    forall s | s in p.startup ensures
      DecodeStartup(StartupLine(s)) == Some(s) && Good(StartupLine(s)) { IdReadsBack("startup", s); }
    var l2 := Mapped(StartupLine, p.startup) + rest;
    var l1 := Mapped(ProfileEnvLine, p.environment) + l2;
    RolesReadBack(p.roles, l1);
    MappedReadsBack(ProfileEnvLine, p.environment, l2, DecodeProfileEnv);
    MappedReadsBack(StartupLine, p.startup, rest, DecodeStartup);
    GoodMapped(ProfileEnvLine, p.environment);
    GoodMapped(StartupLine, p.startup);
    assert (ProfileLines(p, two) + rest)[1..] == AllRoleLines(p.roles) + l1;
  }

  lemma HeadersAreGood(p: RuntimePlan, two: bool)
    requires 100 <= p.stopGraceMs <= 60_000
    ensures AllGood([if two then HEADER_V2 else HEADER_V1, GraceLine(p.stopGraceMs)])
    ensures DecodeGrace(GraceLine(p.stopGraceMs)) == Some(p.stopGraceMs) && HEADER_V1 != HEADER_V2
  {
    GraceReadsBack(p.stopGraceMs);
    assert HEADER_V1[22] != HEADER_V2[22];
  }

  /** The lines of a plan read back as that plan. */
  lemma LinesReadBack(p: RuntimePlan, two: bool)
    requires PlanOk(p, two)
    ensures PlanOfLines(PlanLines(p, two)) == Some(p) && AllGood(PlanLines(p, two))
  {
    hide ProfileAt, ProfileLines, ComponentsAt, AllComponentLines, Good, DecodeGrace, GraceLine, ComponentOk,
         ProfileFine, ProfileKnown, WellOrdered;
    HeadersAreGood(p, two);
    var rest := AllComponentLines(p.components, two);
    ProfileReadsBackAt(ProfileOf(p), two, rest);
    ComponentsReadBack(p.components, two, MAX_COMPONENTS);
    NonemptyComponents(p.components, two);
    assert PlanLines(p, two)[2..] == ProfileLines(ProfileOf(p), two) + rest;
  }

  lemma NonemptyComponents(cs: seq<ComponentPlan>, two: bool)
    requires cs != []
    ensures AllComponentLines(cs, two) != []
  {
  }

  /** Reading inverts writing: for every plan the compiler can write, the parser accepts its text and returns it. */
  lemma ParseInvertsPrint(p: RuntimePlan, two: bool)
    requires PlanOk(p, two) && |TextOfPlan(p, two)| <= MAX_PLAN_BYTES
    ensures ParsePlan(TextOfPlan(p, two)) == Some(p)
  {
    hide PlanOfLines, PlanLines, PlanOk, GoodLine, LinesOf, Unlines;
    LinesReadBack(p, two);
    var lines := PlanLines(p, two);
    assert lines != [] by { PlanHasLines(p, two); }
    LinesUnlines(lines);
  }

  lemma PlanHasLines(p: RuntimePlan, two: bool)
    ensures PlanLines(p, two) != []
  {
  }

  // ---- The format in full ----

  /** How the header of a component is written: the words, and which number stands where. */
  lemma HeaderInFull()
    ensures var h := Header("x", Window, true, OnFailure, Mipc, 5, 6, 7, 8, 2, 3, 1, Service(OnDemand, 9, 4, 0, false));
      HeaderLine(h, true) ==
      Record(["component", "x", "window", "1", "on-failure", "mipc-ready", "5", "6", "7", "8", "2", "3", "1"] +
             ["on-demand", "9", "4", "0", "0"])
  {
    hide Record;
    NumbersInFull();
    assert ServiceFields(Service(OnDemand, 9, 4, 0, false)) == ["on-demand", "9", "4", "0", "0"];
  }

  lemma NumbersInFull()
    ensures [Digits(0), Digits(1), Digits(2), Digits(3), Digits(4)] == ["0", "1", "2", "3", "4"]
    ensures [Digits(5), Digits(6), Digits(7), Digits(8), Digits(9)] == ["5", "6", "7", "8", "9"]
    ensures Digits(2000) == "2000"
  {
    assert Digits(200) == "200" && Digits(20) == "20";
  }

  lemma WordsInFull()
    ensures [KindName(Display), KindName(Window), KindName(Shell), KindName(Other)] ==
            ["display", "window", "shell", "other"]
    ensures [RestartName(Never), RestartName(OnFailure), RestartName(Always)] == ["never", "on-failure", "always"]
    ensures [ReadinessName(Exec), ReadinessName(Fd), ReadinessName(Mipc), ReadinessName(X11Display)] ==
            ["exec", "fd", "mipc-ready", "x11-display"]
    ensures [LifecycleName(Background), LifecycleName(OnDemand), LifecycleName(Manual)] ==
            ["background", "on-demand", "manual"]
    ensures [ProvideName(Role), ProvideName(Interface), ProvideName(Capability)] == ["role", "interface", "capability"]
    ensures Record(["a", "b", "c"]) == "a\tb\tc"
  {
  }

  /** How the other records of a component are written. */
  lemma RecordsInFull()
    ensures ArgLine("/") == Record(["arg", "2f"]) && AfterLine("a") == Record(["after", "a"])
    ensures ComponentEnvLine(("K", "v")) == Record(["env", "4b", "76"])
    ensures ProvideLine(ProvidePlan(Role, "r", true, 4)) == Record(["provide", "role", "72", "1", "4"])
    ensures PermissionLine("p") == Record(["permission", "70"])
  {
    hide Record, EncodeHex;
    Letter('/', 2, 15);
    Letter('K', 4, 11);
    Letter('v', 7, 6);
    Letter('r', 7, 2);
    Letter('p', 7, 0);
  }

  lemma TextsInFull()
    ensures PackageLine(PackagePlan("i", "n", "v", "k")) == Record(["package", "69", "6e", "76", "6b"])
    ensures MetadataLine(Metadata("N", "S", "I")) == Record(["metadata", "4e", "53", "49"])
  {
    hide Record, EncodeHex;
    Letter('i', 6, 9);
    Letter('n', 6, 14);
    Letter('v', 7, 6);
    Letter('k', 6, 11);
    Letter('N', 4, 14);
    Letter('S', 5, 3);
    Letter('I', 4, 9);
  }

  lemma WindowInFull()
    ensures WindowLine(WindowPlan("s", "d", "m", "t", "a", "c", "w")) ==
            Record(["window", "73", "64", "6d", "74", "61", "63", "77"])
  {
    hide Record, EncodeHex;
    Letter('s', 7, 3);
    Letter('d', 6, 4);
    Letter('m', 6, 13);
    Letter('t', 7, 4);
    Letter('a', 6, 1);
    Letter('c', 6, 3);
    Letter('w', 7, 7);
  }

  /** How the other records of a profile are written. */
  lemma ProfileInFull()
    ensures ProfileLine(ProfileHeader("p", "d", 1, 2, 3)) == Record(["profile", "70", "64", "1", "2", "3"])
    ensures RoleLine("r", 1) == Record(["role", "72", "1"]) && ProviderLine("x") == Record(["provider", "x"])
    ensures ProfileEnvLine(("K", "v")) == Record(["profile-env", "4b", "76"])
    ensures StartupLine("x") == Record(["startup", "x"]) && GraceLine(2000) == Record(["stop_grace_ms", "2000"])
  {
    hide Record, EncodeHex;
    NumbersInFull();
    Letter('p', 7, 0);
    Letter('d', 6, 4);
    Letter('r', 7, 2);
    Letter('K', 4, 11);
    Letter('v', 7, 6);
  }

  lemma Letter(c: char, high: nat, low: nat)
    requires c as int == 16 * high + low && high < 16 && low < 16
    ensures EncodeHex([c]) == [HexChar(high), HexChar(low)]
  {
    hide HexChar;
    assert [c][1..] == "" && EncodeHex("") == "";
    assert c as int % 256 == c as int;
  }
}
