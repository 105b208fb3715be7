/** The records of the plan format, one line each: how the compiler writes them
    and how the parser reads them back. */
module PlanRecords {
  import opened DependencyGraph
  import opened RuntimePlanModel
  import opened PlanText
  import opened Characters

  // ---- Names and texts ----

  predicate IdChar(c: char) {
    AsciiAlnum(c) || c == '_' || c == '-' || c == '.' || c == ':'
  }

  predicate ValidId(s: string) {
    1 <= |s| <= 128 && AsciiAlnum(s[0]) && forall k :: 0 <= k < |s| ==> IdChar(s[k])
  }

  predicate KeyChar(c: char) {
    AsciiAlnum(c) || c == '_'
  }

  predicate ValidKey(s: string) {
    1 <= |s| <= 128 && (AsciiAlpha(s[0]) || s[0] == '_') && forall k :: 0 <= k < |s| ==> KeyChar(s[k])
  }

  const RESERVED: set<string> := {
    "MSYS_READY_FD", "MSYS_CONTROL_FD", "MSYS_COMPONENT_ID", "MSYS_GENERATION", "MSYS_RUNTIME_DIR",
    "MSYS_PACKAGE_ID", "MSYS_PACKAGE_VERSION", "MSYS_WINDOW_TITLE", "MSYS_APP_ID", "MSYS_WINDOW_IDENTITY",
    "MSYS_X11_WM_INSTANCE" }

  /** A NUL-free byte string of bounded length. */
  predicate TextOk(s: string, bound: nat) {
    IsBytes(s) && '\0' !in s && |s| <= bound
  }

  predicate EnvOk(e: (string, string)) {
    ValidKey(e.0) && e.0 !in RESERVED && TextOk(e.1, 4096)
  }

  lemma IdIsText(s: string)
    requires ValidId(s) || ValidKey(s)
    ensures TextOk(s, 128) && PlainText(s)
  {
  }

  // ---- Enumerations ----

  function KindName(k: ComponentKind): string {
    match k case Display => "display" case Window => "window" case Shell => "shell" case Other => "other"
  }

  function KindNamed(s: string): (r: Option<ComponentKind>)
    ensures r.Some? ==> KindName(r.value) == s
  {
    if s == "display" then Some(Display) else if s == "window" then Some(Window)
    else if s == "shell" then Some(Shell) else if s == "other" then Some(Other) else None
  }

  function RestartName(p: RestartPolicy): string {
    match p case Never => "never" case OnFailure => "on-failure" case Always => "always"
  }

  function RestartNamed(s: string): (r: Option<RestartPolicy>)
    ensures r.Some? ==> RestartName(r.value) == s
  {
    if s == "never" then Some(Never) else if s == "on-failure" then Some(OnFailure)
    else if s == "always" then Some(Always) else None
  }

  function ReadinessName(m: ReadinessMode): string {
    match m case Exec => "exec" case Fd => "fd" case Mipc => "mipc-ready" case X11Display => "x11-display"
  }

  function ReadinessNamed(s: string): (r: Option<ReadinessMode>)
    ensures r.Some? ==> ReadinessName(r.value) == s
  {
    if s == "exec" then Some(Exec) else if s == "fd" then Some(Fd)
    else if s == "mipc-ready" then Some(Mipc) else if s == "x11-display" then Some(X11Display) else None
  }

  function LifecycleName(l: Lifecycle): string {
    match l case Background => "background" case OnDemand => "on-demand" case Manual => "manual"
  }

  function LifecycleNamed(s: string): (r: Option<Lifecycle>)
    ensures r.Some? ==> LifecycleName(r.value) == s
  {
    if s == "background" then Some(Background) else if s == "on-demand" then Some(OnDemand)
    else if s == "manual" then Some(Manual) else None
  }

  function ProvideName(k: ProvideKind): string {
    match k case Role => "role" case Interface => "interface" case Capability => "capability"
  }

  function ProvideNamed(s: string): (r: Option<ProvideKind>)
    ensures r.Some? ==> ProvideName(r.value) == s
  {
    if s == "role" then Some(Role) else if s == "interface" then Some(Interface)
    else if s == "capability" then Some(Capability) else None
  }

  lemma NamesReadBack()
    ensures forall k :: KindNamed(KindName(k)) == Some(k)
    ensures forall p :: RestartNamed(RestartName(p)) == Some(p)
    ensures forall m :: ReadinessNamed(ReadinessName(m)) == Some(m)
    ensures forall l :: LifecycleNamed(LifecycleName(l)) == Some(l)
    ensures forall k :: ProvideNamed(ProvideName(k)) == Some(k)
  {
    forall k ensures KindNamed(KindName(k)) == Some(k) {}
    forall m ensures ReadinessNamed(ReadinessName(m)) == Some(m) {}
  }

  function Bit(b: bool): string {
    if b then "1" else "0"
  }

  function BitNamed(s: string): Option<bool> {
    if s == "1" then Some(true) else if s == "0" then Some(false) else None
  }

  // ---- Lines ----

  function Record(fields: seq<string>): string {
    Join(fields, '\t')
  }

  function Fields(line: string): seq<string> {
    Split(line, '\t')
  }

  /** A list of fields that survives being written and read as one line. */
  predicate Writable(fields: seq<string>) {
    fields != [] && fields[0] != "" && (forall k :: 0 <= k < |fields| ==> PlainText(fields[k])) &&
      Size(fields) <= MAX_LINE_BYTES
  }

  /** The length of the line. */
  function Size(fields: seq<string>): nat {
    if fields == [] then 0 else |fields[0]| + 1 + Size(fields[1..])
  }

  lemma {:induction false} JoinPlain(fields: seq<string>)
    requires fields != [] && forall k :: 0 <= k < |fields| ==> PlainText(fields[k])
    ensures '\n' !in Record(fields) && '\r' !in Record(fields) && |Record(fields)| + 1 == Size(fields)
    ensures fields[0] <= Record(fields)
  {
    assert PlainText(fields[0]);
    if |fields| > 1 {
      JoinPlain(fields[1..]);
    } else {
      assert fields[1..] == [];
    }
  }

  lemma {:induction false} SizeBound(fields: seq<string>, b: nat)
    requires forall k :: 0 <= k < |fields| ==> |fields[k]| <= b
    ensures Size(fields) <= |fields| * (b + 1)
  {
    if fields != [] {
      SizeBound(fields[1..], b);
      assert |fields| * (b + 1) == (b + 1) + (|fields| - 1) * (b + 1);
    }
  }

  lemma Written(fields: seq<string>)
    requires Writable(fields)
    ensures Fields(Record(fields)) == fields
    ensures GoodLine(Record(fields)) && '\n' !in Record(fields)
  {
    JoinPlain(fields);
    forall f | f in fields ensures '\t' !in f {
      var k :| 0 <= k < |fields| && fields[k] == f;
      assert PlainText(fields[k]);
    }
    SplitJoin(fields, '\t');
    assert fields[0] != "" ;
  }

  /** A text written in hexadecimal reads back, and is bounded. */
  lemma Encoded(s: string, bound: nat)
    requires TextOk(s, bound) && bound <= 4096
    ensures DecodeHex(EncodeHex(s)) == Some(s) && PlainText(EncodeHex(s)) && |EncodeHex(s)| <= 2 * bound
  {
    hide DecodePairs, EncodeHex, IsBytes;
    HexRoundTrip(s);
  }

  lemma NumberText(n: nat)
    requires n <= 9_999_999
    ensures PlainText(Digits(n)) && |Digits(n)| <= 7
  {
    ShortNumber(n);
    forall c | c in Digits(n) ensures Plain(c) { assert IsDigit(c); }
  }

  /** Short plain fields make a writable line. */
  lemma Fits(fields: seq<string>, b: nat)
    requires fields != [] && fields[0] != "" && |fields| * (b + 1) <= MAX_LINE_BYTES
    requires forall k :: 0 <= k < |fields| ==> PlainText(fields[k]) && |fields[k]| <= b
    ensures Fields(Record(fields)) == fields
    ensures Good(Record(fields))
  {
    SizeBound(fields, b);
    Written(fields);
  }

  /** A line the splitter accepts as one line. */
  predicate Good(line: string) {
    GoodLine(line) && '\n' !in line
  }

  lemma TagIsPlain(tag: string)
    requires ValidId(tag)
    ensures PlainText(tag) && 1 <= |tag| <= 128
  {
  }

  // ---- Single records ----

  function ArgLine(a: string): string {
    Record(["arg", EncodeHex(a)])
  }

  function DecodeArg(line: string): Option<string> {
    var f := Fields(line);
    if |f| != 2 || f[0] != "arg" then None else DecodeHex(f[1])
  }

  lemma ArgReadsBack(a: string)
    requires TextOk(a, 4096)
    ensures DecodeArg(ArgLine(a)) == Some(a) && Good(ArgLine(a))
  {
    hide Record, Fields, EncodeHex, DecodeHex, Good, ValidId;
    Encoded(a, 4096);
    Fits(["arg", EncodeHex(a)], 8192);
  }

  /** A record that holds one id in clear. */
  function IdLine(tag: string, id: string): string {
    Record([tag, id])
  }

  function DecodeId(tag: string, line: string): Option<string> {
    var f := Fields(line);
    if |f| != 2 || f[0] != tag || !ValidId(f[1]) then None else Some(f[1])
  }

  lemma IdReadsBack(tag: string, id: string)
    requires ValidId(tag) && ValidId(id)
    ensures DecodeId(tag, IdLine(tag, id)) == Some(id) && Good(IdLine(tag, id))
  {
    hide Record, Fields, Good, ValidId;
    TagIsPlain(tag);
    TagIsPlain(id);
    Fits([tag, id], 128);
  }

  function EnvLine(tag: string, e: (string, string)): string {
    Record([tag, EncodeHex(e.0), EncodeHex(e.1)])
  }

  function DecodeEnv(tag: string, line: string): Option<(string, string)> {
    var f := Fields(line);
    if |f| != 3 || f[0] != tag then None
    else
      var key :- DecodeHex(f[1]);
      var value :- DecodeHex(f[2]);
      if !ValidKey(key) || |value| > 4096 || key in RESERVED then None else Some((key, value))
  }

  lemma EnvReadsBack(tag: string, e: (string, string))
    requires ValidId(tag) && EnvOk(e)
    ensures DecodeEnv(tag, EnvLine(tag, e)) == Some(e) && Good(EnvLine(tag, e))
  {
    hide Record, Fields, EncodeHex, DecodeHex, Good, ValidId, ValidKey;
    TagIsPlain(tag);
    IdIsText(e.0);
    Encoded(e.0, 128);
    Encoded(e.1, 4096);
    Fits([tag, EncodeHex(e.0), EncodeHex(e.1)], 8192);
  }

  predicate ProvideOk(p: ProvidePlan) {
    ValidId(p.name) && p.priority <= 1_000_000
  }

  function ProvideLine(p: ProvidePlan): string {
    Record(["provide", ProvideName(p.kind), EncodeHex(p.name), Bit(p.exclusive), Digits(p.priority)])
  }

  function DecodeProvide(line: string): Option<ProvidePlan> {
    var f := Fields(line);
    if |f| != 5 || f[0] != "provide" then None
    else
      var kind :- ProvideNamed(f[1]);
      var name :- DecodeHex(f[2]);
      if !ValidId(name) then None
      else
        var exclusive :- BitNamed(f[3]);
        var priority :- ParseU32(f[4], 0, 1_000_000);
        Some(ProvidePlan(kind, name, exclusive, priority))
  }

  lemma ProvideReadsBack(p: ProvidePlan)
    requires ProvideOk(p)
    ensures DecodeProvide(ProvideLine(p)) == Some(p) && Good(ProvideLine(p))
  {
    hide Record, Fields, EncodeHex, DecodeHex, Good, ValidId, Digits, ParseU32;
    IdIsText(p.name);
    Encoded(p.name, 128);
    ParsePrinted(p.priority, 0, 1_000_000);
    NumberText(p.priority);
    NamesReadBack();
    Fits(["provide", ProvideName(p.kind), EncodeHex(p.name), Bit(p.exclusive), Digits(p.priority)], 256);
  }

  predicate PermissionOk(s: string) {
    s != "" && TextOk(s, 256)
  }

  function PermissionLine(s: string): string {
    Record(["permission", EncodeHex(s)])
  }

  function DecodePermission(line: string): Option<string> {
    var f := Fields(line);
    if |f| != 2 || f[0] != "permission" then None
    else
      var s :- DecodeHex(f[1]);
      if s == "" || |s| > 256 then None else Some(s)
  }

  lemma PermissionReadsBack(s: string)
    requires PermissionOk(s)
    ensures DecodePermission(PermissionLine(s)) == Some(s) && Good(PermissionLine(s))
  {
    hide Record, Fields, EncodeHex, DecodeHex, Good;
    Encoded(s, 256);
    Fits(["permission", EncodeHex(s)], 512);
  }

  predicate PackageOk(p: PackagePlan) {
    ValidId(p.id) && TextOk(p.name, 256) && TextOk(p.version, 64) && TextOk(p.kind, 64)
  }

  function PackageLine(p: PackagePlan): string {
    Record(["package", EncodeHex(p.id), EncodeHex(p.name), EncodeHex(p.version), EncodeHex(p.kind)])
  }

  function DecodePackage(line: string): Option<PackagePlan> {
    var f := Fields(line);
    if |f| != 5 || f[0] != "package" then None
    else
      var id :- DecodeHex(f[1]);
      var name :- DecodeHex(f[2]);
      var version :- DecodeHex(f[3]);
      var kind :- DecodeHex(f[4]);
      if !ValidId(id) || |name| > 256 || |version| > 64 || |kind| > 64 then None
      else Some(PackagePlan(id, name, version, kind))
  }

  lemma PackageReadsBack(p: PackagePlan)
    requires PackageOk(p)
    ensures DecodePackage(PackageLine(p)) == Some(p) && Good(PackageLine(p))
  {
    hide Record, Fields, EncodeHex, DecodeHex, Good, ValidId;
    IdIsText(p.id);
    Encoded(p.id, 128);
    Encoded(p.name, 256);
    Encoded(p.version, 64);
    Encoded(p.kind, 64);
    Fits(["package", EncodeHex(p.id), EncodeHex(p.name), EncodeHex(p.version), EncodeHex(p.kind)], 512);
  }

  /** What a component is called: its name, summary and icon. */
  datatype Metadata = Metadata(name: string, summary: string, icon: string)

  predicate MetadataOk(m: Metadata) {
    m.name != "" && TextOk(m.name, 256) && TextOk(m.summary, 1024) && TextOk(m.icon, 4096)
  }

  function MetadataLine(m: Metadata): string {
    Record(["metadata", EncodeHex(m.name), EncodeHex(m.summary), EncodeHex(m.icon)])
  }

  function DecodeMetadata(line: string): Option<Metadata> {
    var f := Fields(line);
    if |f| != 4 || f[0] != "metadata" then None
    else
      var name :- DecodeHex(f[1]);
      var summary :- DecodeHex(f[2]);
      var icon :- DecodeHex(f[3]);
      if name == "" || |name| > 256 || |summary| > 1024 || |icon| > 4096 then None
      else Some(Metadata(name, summary, icon))
  }

  lemma MetadataReadsBack(m: Metadata)
    requires MetadataOk(m)
    ensures DecodeMetadata(MetadataLine(m)) == Some(m) && Good(MetadataLine(m))
  {
    hide Record, Fields, EncodeHex, DecodeHex;
    Encoded(m.name, 256);
    Encoded(m.summary, 1024);
    Encoded(m.icon, 4096);
    var f := ["metadata", EncodeHex(m.name), EncodeHex(m.summary), EncodeHex(m.icon)];
    SizeBound(f[1..], 8192);
    Written(f);
  }

  predicate WindowOk(w: WindowPlan) {
    && TextOk(w.system, 32) && TextOk(w.display, 64) && TextOk(w.mode, 64) && TextOk(w.title, 256)
    && TextOk(w.appId, 256) && TextOk(w.wmClass, 256) && TextOk(w.wmInstance, 256)
  }

  function WindowLine(w: WindowPlan): string {
    Record(["window", EncodeHex(w.system), EncodeHex(w.display), EncodeHex(w.mode), EncodeHex(w.title),
            EncodeHex(w.appId), EncodeHex(w.wmClass), EncodeHex(w.wmInstance)])
  }

  function DecodeWindow(line: string): Option<WindowPlan> {
    var f := Fields(line);
    if |f| != 8 || f[0] != "window" then None
    else
      var system :- DecodeHex(f[1]);
      var display :- DecodeHex(f[2]);
      var mode :- DecodeHex(f[3]);
      var title :- DecodeHex(f[4]);
      var appId :- DecodeHex(f[5]);
      var wmClass :- DecodeHex(f[6]);
      var wmInstance :- DecodeHex(f[7]);
      if |system| > 32 || |display| > 64 || |mode| > 64 || |title| > 256
         || |appId| > 256 || |wmClass| > 256 || |wmInstance| > 256 then None
      else Some(WindowPlan(system, display, mode, title, appId, wmClass, wmInstance))
  }

  lemma WindowReadsBack(w: WindowPlan)
    requires WindowOk(w)
    ensures DecodeWindow(WindowLine(w)) == Some(w) && Good(WindowLine(w))
  {
    hide Record, Fields, EncodeHex, DecodeHex, Good;
    Encoded(w.system, 32);
    Encoded(w.display, 64);
    Encoded(w.mode, 64);
    Encoded(w.title, 256);
    Encoded(w.appId, 256);
    Encoded(w.wmClass, 256);
    Encoded(w.wmInstance, 256);
    Fits(["window", EncodeHex(w.system), EncodeHex(w.display), EncodeHex(w.mode), EncodeHex(w.title),
          EncodeHex(w.appId), EncodeHex(w.wmClass), EncodeHex(w.wmInstance)], 512);
  }

  // ---- Component headers ----

  /** The first line of a component: its scalar settings, and how many records of each kind follow. */
  datatype Header = Header(
    id: string, kind: ComponentKind, critical: bool, restart: RestartPolicy, readiness: ReadinessMode,
    timeoutMs: nat, initialMs: nat, maxMs: nat, limit: nat, args: nat, deps: nat, envs: nat, service: Service)

  /** The settings only version 2 knows. */
  datatype Service = Service(lifecycle: Lifecycle, idleMs: nat, provided: nat, permissions: nat, launchable: bool)

  const NO_SERVICE := Service(Background, 0, 0, 0, false)

  predicate ServiceOk(s: Service) {
    && s.idleMs <= 3_600_000 && s.provided <= 32 && s.permissions <= 128
    && (if s.lifecycle == OnDemand then s.idleMs >= 100 else s.idleMs == 0)
  }

  predicate HeaderOk(h: Header) {
    && ValidId(h.id) && 1 <= h.timeoutMs <= 300_000 && 1 <= h.initialMs <= 60_000 && h.initialMs <= h.maxMs <= 300_000
    && h.limit <= 1000 && 1 <= h.args <= 64 && h.deps <= 32 && h.envs <= 64 && ServiceOk(h.service)
  }

  function CoreFields(h: Header): seq<string> {
    ["component", h.id, KindName(h.kind), Bit(h.critical), RestartName(h.restart), ReadinessName(h.readiness),
     Digits(h.timeoutMs), Digits(h.initialMs), Digits(h.maxMs), Digits(h.limit),
     Digits(h.args), Digits(h.deps), Digits(h.envs)]
  }

  function ServiceFields(s: Service): seq<string> {
    [LifecycleName(s.lifecycle), Digits(s.idleMs), Digits(s.provided), Digits(s.permissions), Bit(s.launchable)]
  }

  function HeaderLine(h: Header, two: bool): string {
    Record(if two then CoreFields(h) + ServiceFields(h.service) else CoreFields(h))
  }

  function DecodeService(f: seq<string>): Option<Service>
    requires |f| == 5
  {
    var lifecycle :- LifecycleNamed(f[0]);
    var idle :- ParseU32(f[1], 0, 3_600_000);
    if (lifecycle == OnDemand && idle < 100) || (lifecycle != OnDemand && idle != 0) then None
    else
      var provided :- ParseU32(f[2], 0, 32);
      var permissions :- ParseU32(f[3], 0, 128);
      var launchable :- BitNamed(f[4]);
      Some(Service(lifecycle, idle, provided, permissions, launchable))
  }

  function DecodeCore(f: seq<string>, service: Service): Option<Header>
    requires |f| == 13
  {
    if f[0] != "component" || !ValidId(f[1]) then None
    else
      var kind :- KindNamed(f[2]);
      var critical :- BitNamed(f[3]);
      var restart :- RestartNamed(f[4]);
      var readiness :- ReadinessNamed(f[5]);
      var timeout :- ParseU32(f[6], 1, 300_000);
      var initial :- ParseU32(f[7], 1, 60_000);
      var max :- ParseU32(f[8], initial, 300_000);
      var limit :- ParseU32(f[9], 0, 1000);
      var args :- ParseU32(f[10], 1, 64);
      var deps :- ParseU32(f[11], 0, 32);
      var envs :- ParseU32(f[12], 0, 64);
      Some(Header(f[1], kind, critical, restart, readiness, timeout, initial, max, limit, args, deps, envs, service))
  }

  function DecodeHeader(line: string, two: bool): (r: Option<Header>)
  {
    var f := Fields(line);
    if |f| != (if two then 18 else 13) then None
    else if !two then DecodeCore(f, NO_SERVICE)
    else
      var service :- DecodeService(f[13..]);
      DecodeCore(f[..13], service)
  }

  lemma DecodedHeaderOk(line: string, two: bool)
    ensures var h := DecodeHeader(line, two); h.Some? ==> HeaderOk(h.value) && (!two ==> h.value.service == NO_SERVICE)
  {
    hide Fields, ParseU32, ValidId, KindNamed, RestartNamed, ReadinessNamed, LifecycleNamed, BitNamed;
  }

  lemma ServiceReadsBack(s: Service)
    requires ServiceOk(s)
    ensures DecodeService(ServiceFields(s)) == Some(s)
    ensures forall k :: 0 <= k < 5 ==> PlainText(ServiceFields(s)[k]) && |ServiceFields(s)[k]| <= 128
  {
    hide Digits, ParseU32;
    NamesReadBack();
    ParsePrinted(s.idleMs, 0, 3_600_000);
    ParsePrinted(s.provided, 0, 32);
    ParsePrinted(s.permissions, 0, 128);
    NumberText(s.idleMs);
    NumberText(s.provided);
    NumberText(s.permissions);
  }

  lemma CoreReadsBack(h: Header)
    requires HeaderOk(h)
    ensures DecodeCore(CoreFields(h), h.service) == Some(h)
  {
    hide Digits, ParseU32, ValidId, ServiceOk, KindNamed, RestartNamed, ReadinessNamed, KindName, RestartName,
         ReadinessName;
    NamesReadBack();
    ParsePrinted(h.timeoutMs, 1, 300_000);
    ParsePrinted(h.initialMs, 1, 60_000);
    ParsePrinted(h.maxMs, h.initialMs, 300_000);
    ParsePrinted(h.limit, 0, 1000);
    ParsePrinted(h.args, 1, 64);
    ParsePrinted(h.deps, 0, 32);
    ParsePrinted(h.envs, 0, 64);
  }

  lemma CoreIsPlain(h: Header)
    requires HeaderOk(h)
    ensures forall k :: 0 <= k < 13 ==> PlainText(CoreFields(h)[k]) && |CoreFields(h)[k]| <= 128
  {
    hide Digits, ValidId, ServiceOk, PlainText, KindName, RestartName, ReadinessName;
    TagIsPlain(h.id);
    NumberText(h.timeoutMs);
    NumberText(h.initialMs);
    NumberText(h.maxMs);
    NumberText(h.limit);
    NumberText(h.args);
    NumberText(h.deps);
    NumberText(h.envs);
    NamesArePlain(h);
  }

  lemma NamesArePlain(h: Header)
    ensures PlainText("component") && PlainText(Bit(h.critical))
    ensures PlainText(KindName(h.kind)) && PlainText(RestartName(h.restart)) && PlainText(ReadinessName(h.readiness))
    ensures |KindName(h.kind)| <= 128 && |RestartName(h.restart)| <= 128 && |ReadinessName(h.readiness)| <= 128
  {
  }

  lemma HeaderReadsBack(h: Header, two: bool)
    requires HeaderOk(h) && (!two ==> h.service == NO_SERVICE)
    ensures DecodeHeader(HeaderLine(h, two), two) == Some(h) && Good(HeaderLine(h, two))
  {
    hide Record, Fields, Good, DecodeCore, DecodeService, PlainText, HeaderOk;
    assert ServiceOk(h.service) by { HeaderServiceOk(h); }
    CoreReadsBack(h);
    CoreIsPlain(h);
    ServiceReadsBack(h.service);
    var f := if two then CoreFields(h) + ServiceFields(h.service) else CoreFields(h);
    Fits(f, 128);
    if two {
      assert f[..13] == CoreFields(h) && f[13..] == ServiceFields(h.service);
    }
  }

  lemma HeaderServiceOk(h: Header)
    requires HeaderOk(h)
    ensures ServiceOk(h.service)
  {
  }

  // ---- Profile records ----

  /** The profile line: id, display, and how many roles, variables and startup entries follow. */
  datatype ProfileHeader = ProfileHeader(id: string, display: string, roles: nat, envs: nat, startups: nat)

  predicate ProfileOk(p: ProfileHeader) {
    ValidId(p.id) && TextOk(p.display, 63) && p.roles <= 64 && p.envs <= 64 && p.startups <= 64
  }

  function ProfileLine(p: ProfileHeader): string {
    Record(["profile", EncodeHex(p.id), EncodeHex(p.display), Digits(p.roles), Digits(p.envs), Digits(p.startups)])
  }

  function DecodeProfile(line: string): (r: Option<ProfileHeader>) {
    var f := Fields(line);
    if |f| != 6 || f[0] != "profile" then None
    else
      var id :- DecodeHex(f[1]);
      var display :- DecodeHex(f[2]);
      if !ValidId(id) || |display| > 63 then None
      else
        var roles :- ParseU32(f[3], 0, 64);
        var envs :- ParseU32(f[4], 0, 64);
        var startups :- ParseU32(f[5], 0, 64);
        Some(ProfileHeader(id, display, roles, envs, startups))
  }

  lemma ProfileReadsBack(p: ProfileHeader)
    requires ProfileOk(p)
    ensures DecodeProfile(ProfileLine(p)) == Some(p) && Good(ProfileLine(p))
  {
    hide Record, Fields, EncodeHex, DecodeHex, Good, ValidId, Digits, ParseU32;
    IdIsText(p.id);
    Encoded(p.id, 128);
    Encoded(p.display, 63);
    ParsePrinted(p.roles, 0, 64);
    ParsePrinted(p.envs, 0, 64);
    ParsePrinted(p.startups, 0, 64);
    NumberText(p.roles);
    NumberText(p.envs);
    NumberText(p.startups);
    Fits(["profile", EncodeHex(p.id), EncodeHex(p.display), Digits(p.roles), Digits(p.envs), Digits(p.startups)], 256);
  }

  function RoleLine(role: string, providers: nat): string {
    Record(["role", EncodeHex(role), Digits(providers)])
  }

  function DecodeRole(line: string): Option<(string, nat)> {
    var f := Fields(line);
    if |f| != 3 || f[0] != "role" then None
    else
      var role :- DecodeHex(f[1]);
      if !ValidId(role) then None
      else
        var providers :- ParseU32(f[2], 1, 64);
        Some((role, providers))
  }

  lemma RoleReadsBack(role: string, providers: nat)
    requires ValidId(role) && 1 <= providers <= 64
    ensures DecodeRole(RoleLine(role, providers)) == Some((role, providers)) && Good(RoleLine(role, providers))
  {
    hide Record, Fields, EncodeHex, DecodeHex, Good, ValidId, Digits, ParseU32;
    IdIsText(role);
    Encoded(role, 128);
    ParsePrinted(providers, 1, 64);
    NumberText(providers);
    Fits(["role", EncodeHex(role), Digits(providers)], 256);
  }

  function GraceLine(ms: nat): string {
    Record(["stop_grace_ms", Digits(ms)])
  }

  function DecodeGrace(line: string): Option<nat> {
    var f := Fields(line);
    if |f| != 2 || f[0] != "stop_grace_ms" then None else ParseU32(f[1], 100, 60_000)
  }

  lemma GraceReadsBack(ms: nat)
    requires 100 <= ms <= 60_000
    ensures DecodeGrace(GraceLine(ms)) == Some(ms) && Good(GraceLine(ms))
  {
    hide Record, Fields, Good, Digits, ParseU32;
    ParsePrinted(ms, 100, 60_000);
    NumberText(ms);
    Fits(["stop_grace_ms", Digits(ms)], 128);
  }
}
