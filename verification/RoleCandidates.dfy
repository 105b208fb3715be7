/** How the candidates of one role are found and ordered. */
module RoleCandidates {
  import opened DependencyGraph
  import opened TextOrder
  import opened RuntimePlanModel
  import opened RoleRegistryModel

  /** Named by the profile first, in its order; then by descending priority; then by id. */
  predicate Precedes(a: Candidate, b: Candidate) {
    if a.rank.Some? && b.rank.Some? then a.rank.value < b.rank.value
    else if a.rank.Some? != b.rank.Some? then a.rank.Some?
    else if a.priority != b.priority then a.priority > b.priority
    else Before(a.provider, b.provider)
  }

  ghost predicate Ordered(s: seq<Candidate>) {
    forall i, j :: 0 <= i < j < |s| ==> Precedes(s[i], s[j])
  }

  /** What the profile's entry at a position stands for. */
  function Explicit(ids: seq<string>, rank: nat, declared: map<string, (int, bool)>): Candidate
    requires rank < |ids|
  {
    var id := ids[rank];
    if id in declared then Candidate(id, declared[id].0, declared[id].1, Some(rank), true)
    else Candidate(id, 0, true, Some(rank), false)
  }

  function Discovered(id: string, declared: map<string, (int, bool)>): Candidate
    requires id in declared
  {
    Candidate(id, declared[id].0, declared[id].1, None, true)
  }

  /** The profile's installed entries among the first `n`, each at its first mention. */
  ghost predicate IsExplicit(ids: seq<string>, installed: set<string>, declared: map<string, (int, bool)>, n: nat,
                             c: Candidate)
    requires n <= |ids|
  {
    exists k :: 0 <= k < n && ids[k] in installed && ids[k] !in ids[..k] && c == Explicit(ids, k, declared)
  }

  method ExplicitCandidates(ids: seq<string>, installed: set<string>, declared: map<string, (int, bool)>)
    returns (candidates: seq<Candidate>, seen: set<string>)
    ensures Ordered(candidates) && (forall c :: c in candidates ==> c.rank.Some?)
    ensures forall c :: c in candidates <==> IsExplicit(ids, installed, declared, |ids|, c)
    ensures seen == set id | id in ids && id in installed
  {
    candidates, seen := [], {};
    for rank := 0 to |ids|
      invariant Ordered(candidates) && forall c :: c in candidates ==> c.rank.Some? && c.rank.value < rank
      invariant forall c :: c in candidates <==> IsExplicit(ids, installed, declared, rank, c)
      invariant seen == set id | id in ids[..rank] && id in installed
    {
      var id := ids[rank];
      assert ids[..rank+1] == ids[..rank] + [id];
      ghost var before := candidates;
      if id !in seen && id in installed {
        seen := seen + {id};
        var c := Explicit(ids, rank, declared);
        assert forall k :: 0 <= k < |candidates| ==> candidates[k] in candidates;
        candidates := candidates + [c];
        assert IsExplicit(ids, installed, declared, rank + 1, c);
      }
      forall c ensures c in candidates <==> IsExplicit(ids, installed, declared, rank + 1, c) {
        assert c in before <==> IsExplicit(ids, installed, declared, rank, c);
      }
    }
    assert ids[..|ids|] == ids;
  }

  /** Sorted insertion among discovered candidates. */
  function InsertDiscovered(s: seq<Candidate>, c: Candidate): (r: seq<Candidate>)
    requires Ordered(s) && c.rank.None? && forall x :: x in s ==> x.rank.None? && x.provider != c.provider
    ensures Ordered(r) && forall x :: x in r <==> x in s || x == c
  {
    if s == [] then [c]
    else if Precedes(c, s[0]) then
      assert Ordered([c] + s) by { PrecedesAll(c, s); }
      [c] + s
    else
      BeforeTotal(c.provider, s[0].provider);
      var rest := InsertDiscovered(s[1..], c);
      assert s == [s[0]] + s[1..] && s[0] in s;
      assert forall k :: 0 <= k < |rest| ==> rest[k] in s[1..] || rest[k] == c;
      [s[0]] + rest
  }

  lemma PrecedesAll(c: Candidate, s: seq<Candidate>)
    requires Ordered(s) && s != [] && Precedes(c, s[0]) && c.rank.None? && forall x :: x in s ==> x.rank.None?
    ensures Ordered([c] + s)
  {
    forall k | 0 <= k < |s| ensures Precedes(c, s[k]) {
      assert s[0] in s && s[k] in s;
      if k > 0 && c.priority == s[0].priority == s[k].priority {
        BeforeTransitive(c.provider, s[0].provider, s[k].provider);
      }
    }
  }

  method DiscoveredCandidates(declared: map<string, (int, bool)>,
                              seen: set<string>) returns (candidates: seq<Candidate>)
    ensures Ordered(candidates) && forall c :: c in candidates ==> c.rank.None?
    ensures forall c :: c in candidates <==>
      c.provider in declared && c.provider !in seen && c == Discovered(c.provider, declared)
  {
    candidates := [];
    var left := declared.Keys - seen;
    while left != {}
      invariant left <= declared.Keys - seen && Ordered(candidates) && forall c :: c in candidates ==> c.rank.None?
      invariant forall c :: c in candidates <==>
        c.provider in declared && c.provider !in seen && c.provider !in left && c == Discovered(c.provider, declared)
      decreases left
    {
      var id :| id in left;
      left := left - {id};
      candidates := InsertDiscovered(candidates, Discovered(id, declared));
    }
  }

  lemma OrderedConcat(a: seq<Candidate>, b: seq<Candidate>)
    requires Ordered(a) && Ordered(b) && (forall c :: c in a ==> c.rank.Some?) && (forall c :: c in b ==> c.rank.None?)
    ensures Ordered(a + b)
  {
    forall i, j | 0 <= i < j < |a + b| ensures Precedes((a + b)[i], (a + b)[j]) {
      assert i < |a| ==> a[i] in a;
      assert j >= |a| ==> b[j - |a|] in b;
    }
  }

  /** A role's candidates: every installed profile entry once, then every other declared provider, in order; the role
      is exclusive as soon as one candidate says so. */
  method BuildRole(ids: seq<string>, installed: set<string>, declared: map<string, (int, bool)>) returns (s: RoleState)
    ensures Ordered(s.candidates)
    ensures forall c :: c in s.candidates <==>
      IsExplicit(ids, installed, declared, |ids|, c)
      || (c.provider in declared && !(c.provider in ids && c.provider in installed) &&
          c == Discovered(c.provider, declared))
    ensures s.exclusive <==> exists c :: c in s.candidates && c.exclusive
    ensures forall id :: IsCandidateOf(s, id) <==> (id in ids && id in installed) || id in declared
  {
    hide Ordered, Precedes;
    var named, seen := ExplicitCandidates(ids, installed, declared);
    var others := DiscoveredCandidates(declared, seen);
    OrderedConcat(named, others);
    var candidates := named + others;
    s := RoleState(candidates, exists c: Candidate :: c in candidates && c.exclusive);
    forall id ensures IsCandidateOf(s, id) <==> (id in ids && id in installed) || id in declared {
      CandidateIds(ids, installed, declared, candidates, s.exclusive, id);
    }
  }

  lemma {:induction false} FirstMention(ids: seq<string>, id: string) returns (k: nat)
    requires id in ids
    ensures k < |ids| && ids[k] == id && id !in ids[..k]
  {
    if ids[0] == id {
      k := 0;
    } else {
      var j := FirstMention(ids[1..], id);
      k := j + 1;
      assert ids[..k] == [ids[0]] + ids[1..][..j];
    }
  }

  lemma CandidateIds(ids: seq<string>, installed: set<string>, declared: map<string, (int, bool)>, cs: seq<Candidate>,
                     exclusive: bool, id: string)
    requires forall c :: c in cs <==>
      IsExplicit(ids, installed, declared, |ids|, c)
      || (c.provider in declared && !(c.provider in ids && c.provider in installed) &&
          c == Discovered(c.provider, declared))
    ensures IsCandidateOf(RoleState(cs, exclusive), id) <==> (id in ids && id in installed) || id in declared
  {
    if id in ids && id in installed {
      var k := FirstMention(ids, id);
      var c := Explicit(ids, k, declared);
      assert IsExplicit(ids, installed, declared, |ids|, c);
      assert c in cs;
    } else if id in declared {
      var c := Discovered(id, declared);
      assert c in cs;
    }
    if IsCandidateOf(RoleState(cs, exclusive), id) {
      var k :| 0 <= k < |cs| && cs[k].provider == id;
      assert cs[k] in cs;
    }
  }

  // ---- All roles ----

  /** One thing a component declares that it provides. */
  datatype Declaration = Declaration(kind: string, name: string, priority: int, exclusive: bool)

  predicate Declares(d: Declaration, role: string) {
    d.kind == "role" && d.name == role
  }

  /** What a component's declarations of a role come to: the highest priority, and exclusive as soon as one says so. */
  function Folded(ds: seq<Declaration>, role: string): (r: Option<(int, bool)>)
    ensures r.Some? <==> exists d :: d in ds && Declares(d, role)
    ensures r.Some? ==> (exists d :: d in ds && Declares(d, role) && d.priority == r.value.0)
    ensures r.Some? ==> forall d :: d in ds && Declares(d, role) ==> d.priority <= r.value.0
    ensures r.Some? ==> (r.value.1 <==> exists d :: d in ds && Declares(d, role) && d.exclusive)
  {
    if ds == [] then None
    else
      var n := |ds| - 1;
      assert ds == ds[..n] + [ds[n]];
      var before := Folded(ds[..n], role);
      assert forall d :: d in ds <==> d in ds[..n] || d == ds[n];
      if Declares(ds[n], role) then Some(Joined(before, ds[n])) else before
  }

  function Joined(before: Option<(int, bool)>, d: Declaration): (int, bool) {
    if before.None? then (d.priority, d.exclusive)
    else (if d.priority > before.value.0 then d.priority else before.value.0, before.value.1 || d.exclusive)
  }

  lemma FoldedNext(ds: seq<Declaration>, k: nat, role: string)
    requires k < |ds|
    ensures Folded(ds[..k+1], role) ==
      if Declares(ds[k], role) then Some(Joined(Folded(ds[..k], role), ds[k])) else Folded(ds[..k], role)
  {
    hide Declares, Joined;
    assert ds[..k+1][..k] == ds[..k];
  }

  /** The loop over one component's declarations. */
  method Fold(ds: seq<Declaration>, role: string) returns (r: Option<(int, bool)>)
    ensures r == Folded(ds, role)
  {
    hide Declares, Joined;
    r := None;
    for k := 0 to |ds|
      invariant r == Folded(ds[..k], role)
    {
      FoldedNext(ds, k, role);
      if Declares(ds[k], role) {
        r := Some(Joined(r, ds[k]));
      }
    }
    assert ds[..|ds|] == ds;
  }

  /** Who declares the role, and with what. */
  function DeclaredFor(components: map<string, seq<Declaration>>, role: string): map<string, (int, bool)> {
    map id | id in components && Folded(components[id], role).Some? :: Folded(components[id], role).value
  }

  method Declared(components: map<string, seq<Declaration>>, role: string) returns (declared: map<string, (int, bool)>)
    ensures declared == DeclaredFor(components, role)
  {
    hide Folded;
    declared := map[];
    var left := components.Keys;
    while left != {}
      invariant left <= components.Keys
      invariant forall id :: id in declared <==> id in components && id !in left && Folded(components[id], role).Some?
      invariant forall id :: id in declared ==> declared[id] == Folded(components[id], role).value
      decreases left
    {
      var id :| id in left;
      left := left - {id};
      var f := Fold(components[id], role);
      if f.Some? {
        declared := declared[id := f.value];
      }
    }
  }

  /** The candidates of a role are those of its profile entry that are installed, and those who declare it. */
  ghost predicate BuiltFrom(s: RoleState, ids: seq<string>, installed: set<string>,
                            declared: map<string, (int, bool)>) {
    && Ordered(s.candidates)
    && (forall c :: c in s.candidates <==>
          IsExplicit(ids, installed, declared, |ids|, c)
          || (c.provider in declared && !(c.provider in ids && c.provider in installed) &&
              c == Discovered(c.provider, declared)))
    && (s.exclusive <==> exists c :: c in s.candidates && c.exclusive)
  }

  /** What the order of a role's candidates is, and what is known of each. */
  lemma CandidatesInFull(s: RoleState, ids: seq<string>, installed: set<string>, declared: map<string, (int, bool)>,
                         i: nat, j: nat)
    requires BuiltFrom(s, ids, installed, declared) && i < j < |s.candidates|
    ensures var a, b := s.candidates[i], s.candidates[j];
      && (b.rank.Some? ==> a.rank.Some? && a.rank.value < b.rank.value)
      && (a.rank.None? ==> a.priority >= b.priority && (a.priority == b.priority ==> Before(a.provider, b.provider)))
    ensures var a := s.candidates[i];
      && (a.rank.Some? <==> a.provider in ids && a.provider in installed)
      && (a.rank.Some? ==>
            a.rank.value < |ids| && ids[a.rank.value] == a.provider && a.provider !in ids[..a.rank.value])
      && (a.declared <==> a.provider in declared) && (a.declared || a.rank.Some?)
      && (a.declared ==> a.priority == declared[a.provider].0 && a.exclusive == declared[a.provider].1)
      && (!a.declared ==> a.priority == 0 && a.exclusive)
  {
    var a, b := s.candidates[i], s.candidates[j];
    assert a in s.candidates && Precedes(a, b);
    if IsExplicit(ids, installed, declared, |ids|, a) {
      var k :| 0 <= k < |ids| && ids[k] in installed && ids[k] !in ids[..k] && a == Explicit(ids, k, declared);
    }
  }

  /** All roles: those of the profile and those somebody declares, but for the disabled ones. */
  method BuildRoles(components: map<string, seq<Declaration>>, profile: map<string, seq<string>>, disabled: set<string>)
    returns (roles: map<string, RoleState>)
    ensures forall role :: role in roles <==>
      role !in disabled && (role in profile || exists id :: id in components && Folded(components[id], role).Some?)
    ensures forall role :: role in roles ==>
      BuiltFrom(roles[role], if role in profile then profile[role]
                else [], components.Keys, DeclaredFor(components, role))
  {
    hide Folded, Ordered, IsExplicit, BuiltFrom;
    var named := set id, k | id in components && 0 <= k < |components[id]| && components[id][k].kind == "role" ::
      components[id][k].name;
    NamedAreDeclared(components, named);
    var left := profile.Keys + named - disabled;
    ghost var all := left;
    roles := map[];
    while left != {}
      invariant left <= all && forall role :: role in roles <==> role in all && role !in left
      invariant forall role :: role in roles ==>
        BuiltFrom(roles[role], if role in profile then profile[role] else [], components.Keys,
                  DeclaredFor(components, role))
      decreases left
    {
      var role :| role in left;
      left := left - {role};
      var declared := Declared(components, role);
      var s := BuildRole(if role in profile then profile[role] else [], components.Keys, declared);
      assert BuiltFrom(s, if role in profile then profile[role] else [], components.Keys, declared) by {
        IsBuilt(s, if role in profile then profile[role] else [], components.Keys, declared);
      }
      roles := roles[role := s];
    }
  }

  lemma IsBuilt(s: RoleState, ids: seq<string>, installed: set<string>, declared: map<string, (int, bool)>)
    requires Ordered(s.candidates) && (s.exclusive <==> exists c :: c in s.candidates && c.exclusive)
    requires forall c :: c in s.candidates <==>
      IsExplicit(ids, installed, declared, |ids|, c)
      || (c.provider in declared && !(c.provider in ids && c.provider in installed) &&
          c == Discovered(c.provider, declared))
    ensures BuiltFrom(s, ids, installed, declared)
  {
  }

  lemma NamedAreDeclared(components: map<string, seq<Declaration>>, named: set<string>)
    requires named == set id, k | id in components && 0 <= k < |components[id]| && components[id][k].kind == "role" ::
      components[id][k].name
    ensures forall role :: role in named <==> exists id :: id in components && Folded(components[id], role).Some?
  {
    forall role ensures role in named <==> exists id :: id in components && Folded(components[id], role).Some? {
      if role in named {
        var id, k :| id in components && 0 <= k < |components[id]| && components[id][k].kind == "role" &&
          components[id][k].name == role;
        assert components[id][k] in components[id] && Declares(components[id][k], role);
      }
      if id :| id in components && Folded(components[id], role).Some? {
        var d :| d in components[id] && Declares(d, role);
        var k :| 0 <= k < |components[id]| && components[id][k] == d;
      }
    }
  }
}
