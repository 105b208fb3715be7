/** The registry of roles: who may fill a role, who is preferred for it, and who holds it. */
module RoleRegistryModel {
  import opened RuntimePlanModel

  datatype Candidate = Candidate(provider: string, priority: int, exclusive: bool, rank: Option<nat>, declared: bool)

  datatype RoleState = RoleState(candidates: seq<Candidate>, exclusive: bool)

  datatype Lease = Lease(token: nat, role: string, provider: string, holder: Option<string>)

  datatype RoleError = UnknownRole | UnknownCandidate | NoCandidate | LeaseConflict | UnknownLease

  predicate IsCandidateOf(s: RoleState, provider: string) {
    exists k :: 0 <= k < |s.candidates| && s.candidates[k].provider == provider
  }

  // ---- What every operation keeps ----

  /** Strictly increasing tokens: acquisition order, without repetition. */
  ghost predicate InOrder(tokens: seq<nat>) {
    forall i, j :: 0 <= i < j < |tokens| ==> tokens[i] < tokens[j]
  }

  /** A stored lease is listed under its role, and names one of the role's candidates. */
  ghost predicate LeaseOk(roles: map<string, RoleState>, roleLeases: map<string, seq<nat>>, nextToken: nat,
                          token: nat, l: Lease) {
    && l.token == token < nextToken && l.role in roles && l.role in roleLeases
    && token in roleLeases[l.role] && IsCandidateOf(roles[l.role], l.provider)
  }

  /** A role lists stored leases of its own, in order, and one at most if it is exclusive. */
  ghost predicate ListOk(s: RoleState, leases: map<nat, Lease>, role: string, tokens: seq<nat>) {
    && InOrder(tokens) && (s.exclusive ==> |tokens| <= 1)
    && forall k :: 0 <= k < |tokens| ==> tokens[k] in leases && leases[tokens[k]].role == role
  }

  /** The token map and the token lists are in bijection. */
  ghost predicate LeaseInv(roles: map<string, RoleState>, leases: map<nat, Lease>, roleLeases: map<string, seq<nat>>,
                           nextToken: nat) {
    && roleLeases.Keys == roles.Keys
    && (forall t :: t in leases ==> LeaseOk(roles, roleLeases, nextToken, t, leases[t]))
    && (forall role :: role in roles ==> ListOk(roles[role], leases, role, roleLeases[role]))
  }

  /** The leases a role lists. */
  function LeasesOf(leases: map<nat, Lease>, tokens: seq<nat>): (r: seq<Lease>)
    requires forall k :: 0 <= k < |tokens| ==> tokens[k] in leases
    ensures |r| == |tokens| && forall k :: 0 <= k < |r| ==> r[k] == leases[tokens[k]]
  {
    seq(|tokens|, k requires 0 <= k < |tokens| => leases[tokens[k]])
  }

  function Providers(leases: seq<Lease>): (r: seq<string>)
    ensures |r| == |leases| && forall k :: 0 <= k < |r| ==> r[k] == leases[k].provider
  {
    seq(|leases|, k requires 0 <= k < |leases| => leases[k].provider)
  }

  /** The first occurrence of each string. */
  function FirstOccurrences(s: seq<string>): (r: seq<string>)
    ensures forall x :: x in r <==> x in s
    ensures s != [] ==> r != [] && r[0] == s[0]
    ensures s == [] ==> r == []
    ensures forall i, j :: 0 <= i < j < |r| ==> r[i] != r[j]
  {
    if s == [] then []
    else
      var n := |s| - 1;
      var before := FirstOccurrences(s[..n]);
      assert s == s[..n] + [s[n]];
      if s[n] in s[..n] then before else before + [s[n]]
  }

  lemma {:induction false} FirstOnesFirst(a: seq<string>, b: seq<string>)
    ensures FirstOccurrences(a) <= FirstOccurrences(a + b)
  {
    if b == [] {
      assert a + b == a;
    } else {
      var n := |b| - 1;
      FirstOnesFirst(a, b[..n]);
      assert (a + b)[..|a| + n] == a + b[..n];
    }
  }

  function RemoveToken(s: seq<nat>, x: nat): (r: seq<nat>)
    ensures InOrder(s) ==> InOrder(r) && (forall y :: y in r <==> y in s && y != x)
    ensures forall y :: y in r ==> y in s
    ensures |r| == if x in s then |s| - 1 else |s|
  {
    if s == [] then []
    else if s[0] == x then
      assert s == [s[0]] + s[1..];
      s[1..]
    else
      var rest := RemoveToken(s[1..], x);
      assert s == [s[0]] + s[1..];
      assert forall k :: 0 <= k < |rest| ==> rest[k] in s[1..];
      [s[0]] + rest
  }

  lemma AcquireStep(roles: map<string, RoleState>, leases: map<nat, Lease>, roleLeases: map<string, seq<nat>>,
                    nextToken: nat, l: Lease)
    requires LeaseInv(roles, leases, roleLeases, nextToken) && l.role in roles && l.token == nextToken
    requires IsCandidateOf(roles[l.role], l.provider) && (roles[l.role].exclusive ==> roleLeases[l.role] == [])
    ensures LeaseInv(roles, leases[nextToken := l], roleLeases[l.role := roleLeases[l.role] + [nextToken]],
                     nextToken + 1)
  {
    hide IsCandidateOf;
    var leases', lists' := leases[nextToken := l], roleLeases[l.role := roleLeases[l.role] + [nextToken]];
    forall t | t in leases' ensures LeaseOk(roles, lists', nextToken + 1, t, leases'[t]) {
      assert t != nextToken ==> LeaseOk(roles, roleLeases, nextToken, t, leases[t]);
    }
    forall role | role in roles ensures ListOk(roles[role], leases', role, lists'[role]) {
      AllBelow(roles, leases, roleLeases, nextToken, role);
    }
  }

  lemma AllBelow(roles: map<string, RoleState>, leases: map<nat, Lease>, roleLeases: map<string, seq<nat>>,
                 nextToken: nat, role: string)
    requires LeaseInv(roles, leases, roleLeases, nextToken) && role in roles
    ensures forall k :: 0 <= k < |roleLeases[role]| ==> roleLeases[role][k] < nextToken
  {
    var tokens: seq<nat> := roleLeases[role];
    assert ListOk(roles[role], leases, role, tokens);
    forall k | 0 <= k < |tokens| ensures tokens[k] < nextToken {
      assert LeaseOk(roles, roleLeases, nextToken, tokens[k], leases[tokens[k]]);
    }
  }

  lemma ReleaseStep(roles: map<string, RoleState>, leases: map<nat, Lease>, roleLeases: map<string, seq<nat>>,
                    nextToken: nat, token: nat)
    requires LeaseInv(roles, leases, roleLeases, nextToken) && token in leases
    ensures leases[token].role in roleLeases
    ensures var role := leases[token].role;
      LeaseInv(roles, leases - {token}, roleLeases[role := RemoveToken(roleLeases[role], token)], nextToken)
  {
    hide IsCandidateOf, RemoveToken, LeaseOk, ListOk;
    StoredRole(roles, leases, roleLeases, nextToken, token);
    var role := leases[token].role;
    var leases', lists' := leases - {token}, roleLeases[role := RemoveToken(roleLeases[role], token)];
    forall t | t in leases' ensures LeaseOk(roles, lists', nextToken, t, leases'[t]) {
      StillListed(roles, roleLeases, nextToken, t, leases[t], token, role);
    }
    forall r | r in roles ensures ListOk(roles[r], leases', r, lists'[r]) {
      ShorterList(roles[r], leases, r, roleLeases[r], token, role);
    }
  }

  lemma StoredRole(roles: map<string, RoleState>, leases: map<nat, Lease>, roleLeases: map<string, seq<nat>>,
                   nextToken: nat, token: nat)
    requires LeaseInv(roles, leases, roleLeases, nextToken) && token in leases
    ensures var role := leases[token].role;
      role in roles && role in roleLeases && InOrder(roleLeases[role]) && token in roleLeases[role]
    ensures leases[token].token == token < nextToken && IsCandidateOf(roles[leases[token].role], leases[token].provider)
  {
    hide IsCandidateOf;
    assert LeaseOk(roles, roleLeases, nextToken, token, leases[token]);
    assert ListOk(roles[leases[token].role], leases, leases[token].role, roleLeases[leases[token].role]);
  }

  lemma StillListed(roles: map<string, RoleState>, roleLeases: map<string, seq<nat>>, nextToken: nat, t: nat,
                    l: Lease, token: nat, role: string)
    requires LeaseOk(roles, roleLeases, nextToken, t, l) && t != token && role in roleLeases
    requires InOrder(roleLeases[role])
    ensures LeaseOk(roles, roleLeases[role := RemoveToken(roleLeases[role], token)], nextToken, t, l)
  {
    hide IsCandidateOf, RemoveToken, InOrder;
  }

  lemma ShorterList(s: RoleState, leases: map<nat, Lease>, r: string, tokens: seq<nat>, token: nat, role: string)
    requires ListOk(s, leases, r, tokens) && token in leases && leases[token].role == role
    ensures ListOk(s, leases - {token}, r, if r == role then RemoveToken(tokens, token) else tokens)
  {
    hide RemoveToken;
    var after: seq<nat> := if r == role then RemoveToken(tokens, token) else tokens;
    forall k | 0 <= k < |after| ensures after[k] in leases - {token} && leases[after[k]].role == r {
      assert after[k] in after;
      var j :| 0 <= j < |tokens| && tokens[j] == after[k];
    }
  }

  // ---- The registry ----

  /** What an observer sees of a lease: who holds the role, on whose behalf. */
  datatype Grant = Grant(provider: string, holder: Option<string>)

  function Grants(leases: seq<Lease>): (r: seq<Grant>)
    ensures |r| == |leases| && forall k :: 0 <= k < |r| ==> r[k] == Grant(leases[k].provider, leases[k].holder)
  {
    seq(|leases|, k requires 0 <= k < |leases| => Grant(leases[k].provider, leases[k].holder))
  }

  class RoleRegistry {
    const roles: map<string, RoleState>
    var preferred: map<string, string>
    var leases: map<nat, Lease>
    var roleLeases: map<string, seq<nat>>
    var nextToken: nat

    ghost predicate Valid()
      reads this
    {
      && LeaseInv(roles, leases, roleLeases, nextToken)
      && (forall role :: role in preferred ==> role in roles && IsCandidateOf(roles[role], preferred[role]))
    }

    constructor (roles: map<string, RoleState>)
      ensures Valid() && this.roles == roles && preferred == map[] && leases == map[] && nextToken == 1
    {
      this.roles := roles;
      preferred, leases, nextToken := map[], map[], 1;
      roleLeases := map role | role in roles :: [];
    }

    /** The override if there is one, else the first candidate. */
    function PreferredProvider(role: string): (r: Option<string>)
      reads this
      requires role in roles
    {
      if role in preferred then Some(preferred[role])
      else if roles[role].candidates != [] then Some(roles[role].candidates[0].provider)
      else None
    }

    function ActiveLeases(role: string): (r: seq<Lease>)
      reads this
      requires Valid() && role in roles
    {
      RoleLists(roles, leases, roleLeases, nextToken, role);
      LeasesOf(leases, roleLeases[role])
    }

    function ActiveProviders(role: string): seq<string>
      reads this
      requires Valid() && role in roles
    {
      FirstOccurrences(Providers(ActiveLeases(role)))
    }

    function ActiveProvider(role: string): Option<string>
      reads this
      requires Valid() && role in roles
    {
      var providers := ActiveProviders(role);
      if providers == [] then None else Some(providers[0])
    }

    method SelectPreferred(role: string, provider: string) returns (error: Option<RoleError>)
      requires Valid()
      modifies `preferred
      ensures Valid()
      ensures error.None? <==> role in roles && IsCandidateOf(roles[role], provider)
      ensures preferred == if error.None? then old(preferred)[role := provider] else old(preferred)
    {
      hide LeaseInv;
      if role !in roles {
        return Some(UnknownRole);
      }
      if !IsCandidateOf(roles[role], provider) {
        return Some(UnknownCandidate);
      }
      preferred := preferred[role := provider];
      error := None;
    }

    method ResetPreferred(role: string) returns (error: Option<RoleError>)
      requires Valid()
      modifies `preferred
      ensures Valid()
      ensures error.None? <==> role in roles
      ensures preferred == if error.None? then old(preferred) - {role} else old(preferred)
    {
      hide LeaseInv;
      if role !in roles {
        return Some(UnknownRole);
      }
      preferred := preferred - {role};
      error := None;
    }

    /** Grants a role. Tokens are never given out twice; an exclusive role that is held refuses. */
    method Acquire(role: string, provider: Option<string>, holder: Option<string>) returns (r: Result<Lease, RoleError>)
      requires Valid()
      modifies `leases, `roleLeases, `nextToken
      ensures Valid()
      ensures r.Ok? <==>
        && role in roles && (roles[role].exclusive ==> old(ActiveLeases(role)) == [])
        && (if provider.Some? then IsCandidateOf(roles[role], provider.value) else PreferredProvider(role).Some?)
      ensures r.Err? ==> unchanged(this)
      ensures r.Ok? ==>
        && old(nextToken) !in old(leases) && nextToken == old(nextToken) + 1
        && r.value == Lease(old(nextToken), role, if provider.Some? then provider.value
                            else PreferredProvider(role).value, holder)
        && ActiveLeases(role) == old(ActiveLeases(role)) + [r.value]
        && forall other :: other in roles && other != role ==> ActiveLeases(other) == old(ActiveLeases(other))
    {
      hide LeaseInv, IsCandidateOf;
      if role !in roles {
        return Err(UnknownRole);
      }
      RoleLists(roles, leases, roleLeases, nextToken, role);
      var chosen := provider;
      if provider.None? {
        if PreferredProvider(role).None? {
          return Err(NoCandidate);
        }
        PreferredIsCandidate(role);
        chosen := PreferredProvider(role);
      }
      if !IsCandidateOf(roles[role], chosen.value) {
        return Err(UnknownCandidate);
      }
      if roles[role].exclusive && roleLeases[role] != [] {
        return Err(LeaseConflict);
      }
      var l := Lease(nextToken, role, chosen.value, holder);
      AcquireStep(roles, leases, roleLeases, nextToken, l);
      Unused(roles, leases, roleLeases, nextToken);
      leases := leases[nextToken := l];
      roleLeases := roleLeases[role := roleLeases[role] + [nextToken]];
      nextToken := nextToken + 1;
      forall other | other in roles && other != role ensures ActiveLeases(other) == old(ActiveLeases(other)) {
        RoleLists(roles, old(leases), old(roleLeases), old(nextToken), other);
      }
      r := Ok(l);
    }

    /** Gives a lease back: it is gone from its role, and nothing else changes. */
    method Release(token: nat) returns (r: Result<Lease, RoleError>)
      requires Valid()
      modifies `leases, `roleLeases
      ensures Valid()
      ensures r.Ok? <==> token in old(leases)
      ensures r.Err? ==> unchanged(this)
      ensures r.Ok? ==> r.value == old(leases)[token] && leases == old(leases) - {token}
      ensures r.Ok? ==> forall role :: role in roles ==> ActiveLeases(role) == Kept(old(ActiveLeases(role)), {token})
    {
      hide LeaseInv, IsCandidateOf;
      if token !in leases {
        return Err(UnknownLease);
      }
      var stored := leases[token];
      StoredRole(roles, leases, roleLeases, nextToken, token);
      ReleaseStep(roles, leases, roleLeases, nextToken, token);
      leases := leases - {token};
      roleLeases := roleLeases[stored.role := RemoveToken(roleLeases[stored.role], token)];
      forall role | role in roles ensures ActiveLeases(role) == Kept(old(ActiveLeases(role)), {token}) {
        RoleLists(roles, old(leases), old(roleLeases), nextToken, role);
        ListedTokens(roles, old(leases), old(roleLeases), nextToken, role);
        if role == stored.role {
          RemovedFromList(old(leases), old(roleLeases)[role], token);
        } else {
          NotInList(old(leases), old(roleLeases)[role], token);
        }
      }
      r := Ok(stored);
    }

    /** Gives back every lease of a role. */
    method ReleaseRole(role: string)
      requires Valid() && role in roles
      modifies `leases, `roleLeases
      ensures Valid() && ActiveLeases(role) == []
      ensures forall other :: other in roles && other != role ==> ActiveLeases(other) == old(ActiveLeases(other))
    {
      hide LeaseInv, IsCandidateOf, Kept;
      var snapshot := ActiveLeases(role);
      assert snapshot[0..] == snapshot;
      for k := 0 to |snapshot|
        invariant Valid() && ActiveLeases(role) == snapshot[k..]
        invariant forall other :: other in roles && other != role ==> ActiveLeases(other) == old(ActiveLeases(other))
      {
        ActiveFacts(role);
        assert snapshot[k..][0] in ActiveLeases(role);
        KeptFirst(snapshot[k..]);
        assert snapshot[k..][1..] == snapshot[k+1..];
        forall other | other in roles && other != role
          ensures Kept(ActiveLeases(other), {snapshot[k].token}) == ActiveLeases(other) {
          ActiveFacts(other);
          KeptAll(ActiveLeases(other), {snapshot[k].token});
        }
        var _ := Release(snapshot[k].token);
      }
    }

    /** A component is gone: all its leases are given back, and nobody else's. */
    method ReleaseProvider(provider: string) returns (released: set<nat>)
      requires Valid()
      modifies `leases, `roleLeases
      ensures Valid()
      ensures forall t :: t in released <==> t in old(leases) && old(leases)[t].provider == provider
      ensures forall role :: role in roles ==> ActiveLeases(role) == Others(old(ActiveLeases(role)), provider)
    {
      hide LeaseInv, IsCandidateOf, Kept, Others;
      released := set t | t in leases && leases[t].provider == provider;
      forall role | role in roles
        ensures Kept(ActiveLeases(role), {}) == ActiveLeases(role)
        ensures Kept(ActiveLeases(role), released) == Others(ActiveLeases(role), provider)
      {
        KeptAll(ActiveLeases(role), {});
        ActiveFacts(role);
        KeptIsOthers(ActiveLeases(role), provider, released);
      }
      ReleaseTokens(released);
    }

    method ReleaseTokens(tokens: set<nat>)
      requires Valid() && forall t :: t in tokens ==> t in leases
      modifies `leases, `roleLeases
      ensures Valid()
      ensures forall role :: role in roles ==> ActiveLeases(role) == Kept(old(ActiveLeases(role)), tokens)
    {
      hide LeaseInv, IsCandidateOf, Kept;
      var left := tokens;
      ghost var gone: set<nat> := {};
      forall role | role in roles ensures Kept(ActiveLeases(role), {}) == ActiveLeases(role) {
        KeptAll(ActiveLeases(role), {});
      }
      while left != {}
        invariant Valid() && gone + left == tokens && gone !! left && forall t :: t in left ==> t in leases
        invariant forall role :: role in roles ==> ActiveLeases(role) == Kept(old(ActiveLeases(role)), gone)
        decreases left
      {
        var token :| token in left;
        forall role | role in roles ensures
          Kept(ActiveLeases(role), {token}) == Kept(old(ActiveLeases(role)), gone + {token}) {
          KeptTwice(old(ActiveLeases(role)), gone, {token});
        }
        var _ := Release(token);
        left := left - {token};
        gone := gone + {token};
      }
      assert gone == tokens;
    }

    /** The leases of a role are stored ones, of that role, for its candidates, in order. */
    lemma ActiveFacts(role: string)
      requires Valid() && role in roles
      ensures TokensRise(ActiveLeases(role)) && (roles[role].exclusive ==> |ActiveLeases(role)| <= 1)
      ensures forall l :: l in ActiveLeases(role) ==> l.role == role && l.token in leases && leases[l.token] == l
      ensures forall l :: l in ActiveLeases(role) ==> IsCandidateOf(roles[role], l.provider)
    {
      hide IsCandidateOf;
      RoleLists(roles, leases, roleLeases, nextToken, role);
      ListedTokens(roles, leases, roleLeases, nextToken, role);
    }

    /** A role with a candidate has a preferred provider. */
    lemma PreferredExists(role: string, provider: string)
      requires role in roles && IsCandidateOf(roles[role], provider)
      ensures PreferredProvider(role).Some?
    {
    }

    lemma PreferredIsCandidate(role: string)
      requires Valid() && role in roles && PreferredProvider(role).Some?
      ensures IsCandidateOf(roles[role], PreferredProvider(role).value)
    {
    }
  }

  lemma RoleLists(roles: map<string, RoleState>, leases: map<nat, Lease>, roleLeases: map<string, seq<nat>>,
                  nextToken: nat, role: string)
    requires LeaseInv(roles, leases, roleLeases, nextToken) && role in roles
    ensures role in roleLeases && ListOk(roles[role], leases, role, roleLeases[role])
    ensures forall k :: 0 <= k < |roleLeases[role]| ==> roleLeases[role][k] in leases && roleLeases[role][k] < nextToken
  {
    AllBelow(roles, leases, roleLeases, nextToken, role);
  }

  lemma Unused(roles: map<string, RoleState>, leases: map<nat, Lease>, roleLeases: map<string, seq<nat>>,
               nextToken: nat)
    requires LeaseInv(roles, leases, roleLeases, nextToken)
    ensures nextToken !in leases
  {
  }

  lemma ListedTokens(roles: map<string, RoleState>, leases: map<nat, Lease>, roleLeases: map<string, seq<nat>>,
                     nextToken: nat, role: string)
    requires LeaseInv(roles, leases, roleLeases, nextToken) && role in roles
    ensures role in roleLeases && InOrder(roleLeases[role])
    ensures forall k :: 0 <= k < |roleLeases[role]| ==>
      var t := roleLeases[role][k];
      && t in leases && leases[t].token == t && leases[t].role == role
      && IsCandidateOf(roles[role], leases[t].provider)
  {
    hide IsCandidateOf;
    var tokens: seq<nat> := roleLeases[role];
    assert ListOk(roles[role], leases, role, tokens);
    forall k | 0 <= k < |tokens| ensures
      leases[tokens[k]].token == tokens[k] && IsCandidateOf(roles[role], leases[tokens[k]].provider) {
      assert LeaseOk(roles, roleLeases, nextToken, tokens[k], leases[tokens[k]]);
    }
  }

  // ---- Lists of leases ----

  ghost predicate TokensRise(s: seq<Lease>) {
    forall i, j :: 0 <= i < j < |s| ==> s[i].token < s[j].token
  }

  /** The leases whose tokens are not among the given ones. */
  function Kept(s: seq<Lease>, gone: set<nat>): seq<Lease> {
    if s == [] then [] else (if s[0].token in gone then [] else [s[0]]) + Kept(s[1..], gone)
  }

  /** The leases that belong to somebody else. */
  function Others(s: seq<Lease>, provider: string): seq<Lease> {
    if s == [] then [] else (if s[0].provider == provider then [] else [s[0]]) + Others(s[1..], provider)
  }

  lemma {:induction false} OthersFacts(s: seq<Lease>, provider: string)
    ensures |Others(s, provider)| <= |s| && (forall l :: l in Others(s, provider) <==> l in s && l.provider != provider)
    ensures s != [] && s[0].provider != provider ==> Others(s, provider) != [] && Others(s, provider)[0] == s[0]
  {
    if s != [] {
      OthersFacts(s[1..], provider);
      forall l ensures l in s <==> l == s[0] || l in s[1..] {
        assert s == [s[0]] + s[1..];
      }
    }
  }

  lemma {:induction false} KeptAll(s: seq<Lease>, gone: set<nat>)
    requires forall l :: l in s ==> l.token !in gone
    ensures Kept(s, gone) == s
  {
    if s != [] {
      KeptAll(s[1..], gone);
    }
  }

  lemma KeptFirst(s: seq<Lease>)
    requires TokensRise(s) && s != []
    ensures Kept(s, {s[0].token}) == s[1..]
  {
    forall l | l in s[1..] ensures l.token != s[0].token {
      var k :| 0 <= k < |s[1..]| && s[1..][k] == l;
      assert s[k+1] == l;
    }
    KeptAll(s[1..], {s[0].token});
  }

  lemma {:induction false} KeptTwice(s: seq<Lease>, a: set<nat>, b: set<nat>)
    ensures Kept(Kept(s, a), b) == Kept(s, a + b)
  {
    if s != [] {
      KeptTwice(s[1..], a, b);
      var rest := Kept(s[1..], a);
      if s[0].token in a {
        assert [] + rest == rest;
      } else {
        assert ([s[0]] + rest)[1..] == rest;
      }
    }
  }

  lemma {:induction false} KeptIsOthers(s: seq<Lease>, provider: string, gone: set<nat>)
    requires forall l :: l in s ==> (l.token in gone <==> l.provider == provider)
    ensures Kept(s, gone) == Others(s, provider)
  {
    if s != [] {
      assert s[0] in s;
      KeptIsOthers(s[1..], provider, gone);
    }
  }

  ghost predicate Stored(leases: map<nat, Lease>, tokens: seq<nat>) {
    forall k :: 0 <= k < |tokens| ==> tokens[k] in leases && leases[tokens[k]].token == tokens[k]
  }

  lemma NotInList(leases: map<nat, Lease>, tokens: seq<nat>, token: nat)
    requires Stored(leases, tokens) && token !in tokens
    ensures Stored(leases - {token}, tokens)
    ensures LeasesOf(leases - {token}, tokens) == Kept(LeasesOf(leases, tokens), {token})
  {
    KeptAll(LeasesOf(leases, tokens), {token});
  }

  lemma {:induction false} RemovedFromList(leases: map<nat, Lease>, tokens: seq<nat>, token: nat)
    requires InOrder(tokens) && Stored(leases, tokens)
    ensures Stored(leases - {token}, RemoveToken(tokens, token))
    ensures LeasesOf(leases - {token}, RemoveToken(tokens, token)) == Kept(LeasesOf(leases, tokens), {token})
  {
    hide InOrder, RemoveToken, Kept;
    if tokens == [] {
      NoneRemoved(token);
      return;
    }
    var first, tail := tokens[0], tokens[1..];
    FirstListed(tokens);
    Prepended(leases, first, tail);
    RemovedFirst(tokens, token);
    KeptOne(leases[first], LeasesOf(leases, tail), {token});
    if first == token {
      NotInList(leases, tail, token);
    } else {
      RemovedFromList(leases, tail, token);
      Prepended(leases - {token}, first, RemoveToken(tail, token));
    }
  }

  lemma NoneRemoved(token: nat)
    ensures RemoveToken([], token) == [] && Kept([], {token}) == []
  {
  }

  lemma FirstListed(tokens: seq<nat>)
    requires InOrder(tokens) && tokens != []
    ensures InOrder(tokens[1..]) && tokens[0] !in tokens[1..] && tokens == [tokens[0]] + tokens[1..]
  {
  }

  /** A list of tokens with one more in front names one more lease. */
  lemma Prepended(leases: map<nat, Lease>, first: nat, tail: seq<nat>)
    requires Stored(leases, tail) && first in leases && leases[first].token == first
    ensures Stored(leases, [first] + tail)
    ensures LeasesOf(leases, [first] + tail) == [leases[first]] + LeasesOf(leases, tail)
  {
  }

  lemma RemovedFirst(tokens: seq<nat>, token: nat)
    requires tokens != []
    ensures RemoveToken(tokens, token) ==
      if tokens[0] == token then tokens[1..] else [tokens[0]] + RemoveToken(tokens[1..], token)
  {
  }

  lemma KeptOne(l: Lease, rest: seq<Lease>, gone: set<nat>)
    ensures Kept([l] + rest, gone) == (if l.token in gone then [] else [l]) + Kept(rest, gone)
  {
    assert ([l] + rest)[1..] == rest;
  }
}
