/** Calls to a role: providers are tried one after another, but a call that may not be
    repeated is not given to a second provider once a first may have seen it.

    Whether candidates can be made ready, what other tasks do to the leases meanwhile and what
    comes of a call is read from arbitrary streams; while a call waits, other calls begin and end. */
module Failover {
  import opened RuntimePlanModel
  import opened DependencyGraph
  import opened RoleRegistryModel
  import opened RoleSwitch

  /** One forwarded call: to whom, under which id. */
  datatype Call = Call(provider: string, id: nat)

  /** Why a channel was closed: its process was stopped, or exited, or the channel itself failed. */
  datatype Closing = Halted | Exited | Broken

  /** What becomes of a call that was put on a provider's channel. */
  datatype Answer = Reply | ReplyError(code: string) | TimedOut | SendFailed | ChannelClosed(how: Closing)

  datatype Response = Returned | Error(code: string, expired: bool)

  /** What came of trying a provider: it had no channel, the deadline was over, or the call was put on its channel. */
  datatype Outcome = Unconnected | TooLate | Put(answer: Answer)

  /** Who was tried, what came of it, and whether that provider held the role at that moment. */
  datatype Try = Try(provider: string, outcome: Outcome, held: bool)

  /** What a lookup meets at a candidate. */
  datatype Attempt = Usable | NotReady | Stale | CatalogChanged

  const NO_PROVIDER_SOCKET := "NO_PROVIDER_SOCKET"
  const LIVENESS: set<string> := {"CALL_TIMEOUT", "CALL_SEND_FAILED", NO_PROVIDER_SOCKET, "PROVIDER_EXITED",
                                  "PROVIDER_STOPPED"}

  function ResponseTo(o: Outcome): Response {
    match o
    case Unconnected => Error(NO_PROVIDER_SOCKET, false)
    case TooLate => Error("CALL_TIMEOUT", true)
    case Put(Reply) => Returned
    case Put(ReplyError(code)) => Error(code, false)
    case Put(TimedOut) => Error("CALL_TIMEOUT", false)
    case Put(SendFailed) => Error("CALL_SEND_FAILED", false)
    case Put(ChannelClosed(how)) => Error(CodeOf(how), false)
  }

  function CodeOf(how: Closing): string {
    match how
    case Halted => "PROVIDER_STOPPED"
    case Exited => "PROVIDER_EXITED"
    case Broken => "PROVIDER_CHANNEL_FAILED"
  }

  /** Does this response say that the provider is not alive? A broken channel does not. */
  predicate Dead(r: Response) {
    r.Error? && !r.expired && r.code in LIVENESS
  }

  /** A channel that failed is told to the caller: the provider is neither stopped nor is another one asked. */
  lemma BrokenIsFinal(retrySafe: bool)
    ensures var r := ResponseTo(Put(ChannelClosed(Broken))); !Dead(r) && !TriesAgain(retrySafe, r)
  {
    var code := "PROVIDER_CHANNEL_FAILED";
    assert code[9] == 'C' && "PROVIDER_EXITED"[9] == 'E' && "PROVIDER_STOPPED"[9] == 'S' && code[0] == 'P';
    assert "CALL_TIMEOUT"[0] == 'C' && "CALL_SEND_FAILED"[0] == 'C' && NO_PROVIDER_SOCKET[0] == 'N';
  }

  /** After this response, is another provider tried? */
  predicate TriesAgain(retrySafe: bool, r: Response) {
    Dead(r) && (retrySafe || r.code == NO_PROVIDER_SOCKET)
  }

  /** The only answer after which a call that may not be repeated goes to somebody else is an error that names the
      code the supervisor reserves for having no channel at all. */
  lemma OnlyTheReservedCode(o: Outcome)
    ensures TriesAgain(false, ResponseTo(o)) <==> o == Unconnected || o == Put(ReplyError(NO_PROVIDER_SOCKET))
  {
    assert NO_PROVIDER_SOCKET[0] == 'N';
    assert "CALL_TIMEOUT"[0] == 'C' && "CALL_SEND_FAILED"[0] == 'C' && "PROVIDER_EXITED"[0] == 'P' &&
           "PROVIDER_STOPPED"[0] == 'P' && "PROVIDER_CHANNEL_FAILED"[0] == 'P';
  }

  /** What the caller is told when this is the last thing that came of its call: whatever it was, but for a call that
      may not be repeated nothing better than not knowing, once a provider that is not alive may have seen it. */
  function Told(retrySafe: bool, o: Outcome): Response {
    var r := ResponseTo(o);
    if Dead(r) && !TriesAgain(retrySafe, r) then Error("OUTCOME_UNKNOWN", false) else r
  }

  /** Case by case. */
  lemma ToldInFull(retrySafe: bool, code: string)
    ensures Told(retrySafe, Put(Reply)) == Returned
    ensures Told(retrySafe, Unconnected) == Error("NO_PROVIDER_SOCKET", false)
    ensures Told(retrySafe, TooLate) == Error("CALL_TIMEOUT", true)
    ensures Told(retrySafe, Put(TimedOut)) == Error(if retrySafe then "CALL_TIMEOUT" else "OUTCOME_UNKNOWN", false)
    ensures Told(retrySafe, Put(SendFailed)) ==
            Error(if retrySafe then "CALL_SEND_FAILED" else "OUTCOME_UNKNOWN", false)
    ensures Told(retrySafe, Put(ChannelClosed(Halted))) ==
            Error(if retrySafe then "PROVIDER_STOPPED" else "OUTCOME_UNKNOWN", false)
    ensures Told(retrySafe, Put(ChannelClosed(Exited))) ==
            Error(if retrySafe then "PROVIDER_EXITED" else "OUTCOME_UNKNOWN", false)
    ensures Told(retrySafe, Put(ChannelClosed(Broken))) == Error("PROVIDER_CHANNEL_FAILED", false)
    ensures Told(retrySafe, Put(ReplyError(code))) == Error(
              if !retrySafe && code in ["CALL_TIMEOUT", "CALL_SEND_FAILED", "PROVIDER_EXITED", "PROVIDER_STOPPED"]
              then "OUTCOME_UNKNOWN" else code, false)
  {
    BrokenIsFinal(retrySafe);
    OnlyTheReservedCode(Put(ReplyError(code)));
    OnlyTheReservedCode(Unconnected);
    OnlyTheReservedCode(Put(TimedOut));
    OnlyTheReservedCode(Put(SendFailed));
    OnlyTheReservedCode(Put(ChannelClosed(Halted)));
    OnlyTheReservedCode(Put(ChannelClosed(Exited)));
  }

  /** The answer to a call of which nothing else came than this. */
  function Verdict(tries: seq<Try>, retrySafe: bool): Response {
    if tries == [] then Error("NO_PROVIDER", false) else Told(retrySafe, tries[|tries| - 1].outcome)
  }

  function Names(candidates: seq<Candidate>): (r: seq<string>)
    ensures |r| == |candidates| && forall k :: 0 <= k < |r| ==> r[k] == candidates[k].provider
  {
    seq(|candidates|, k requires 0 <= k < |candidates| => candidates[k].provider)
  }

  /** In which order providers are looked at: who holds the role, then who is preferred, then the others. */
  function Ordered(s: RoleState, preferred: Option<string>, leases: seq<Lease>): seq<string> {
    FirstOccurrences((if leases == [] then [] else [leases[0].provider]) +
                     (if preferred.Some? then [preferred.value] else []) + Names(s.candidates))
  }

  /** The first that is not excluded, if there is one. */
  function FirstNot(keys: seq<string>, excluded: set<string>): (r: Option<string>)
    ensures r.Some? ==> r.value in keys && r.value !in excluded
    ensures r.None? ==> forall k :: k in keys ==> k in excluded
  {
    if keys == [] then None else if keys[0] !in excluded then Some(keys[0]) else FirstNot(keys[1..], excluded)
  }

  /** Whom a lookup finds if everybody is usable and no other task does anything: the first that is not excluded, unless
      the role may be held once and somebody who is excluded holds it. */
  function Found(s: RoleState, preferred: Option<string>, leases: seq<Lease>, excluded: set<string>): Option<string> {
    if s.exclusive && leases != [] && leases[0].provider in excluded then None
    else FirstNot(Ordered(s, preferred, leases), excluded)
  }

  /** That is: the first holder; or else, unless the role may be held once and somebody holds it, who is preferred; or
      else the first candidate. */
  lemma FoundIs(s: RoleState, preferred: Option<string>, leases: seq<Lease>, excluded: set<string>)
    ensures var r := Found(s, preferred, leases, excluded);
      if leases != [] && leases[0].provider !in excluded then r == Some(leases[0].provider)
      else if leases != [] && s.exclusive then r == None
      else if preferred.Some? && preferred.value !in excluded then r == preferred
      else r == FirstNot(Names(s.candidates), excluded)
  {
    var first, second, all := if leases == [] then [] else [leases[0].provider],
      if preferred.Some? then [preferred.value] else [], Names(s.candidates);
    FirstNotDistinct(first + second + all, excluded);
    FirstNotConcat(first, second, excluded);
    FirstNotConcat(first + second, all, excluded);
  }

  lemma {:induction false} FirstNotConcat(a: seq<string>, b: seq<string>, excluded: set<string>)
    ensures FirstNot(a + b, excluded) ==
            if FirstNot(a, excluded).Some? then FirstNot(a, excluded) else FirstNot(b, excluded)
  {
    if a == [] {
      assert a + b == b;
    } else {
      assert (a + b)[1..] == a[1..] + b;
      FirstNotConcat(a[1..], b, excluded);
    }
  }

  /** Leaving out repetitions does not change who is first. */
  lemma {:induction false} FirstNotDistinct(keys: seq<string>, excluded: set<string>)
    ensures FirstNot(FirstOccurrences(keys), excluded) == FirstNot(keys, excluded)
  {
    if keys != [] {
      var n := |keys| - 1;
      assert keys == keys[..n] + [keys[n]];
      FirstNotDistinct(keys[..n], excluded);
      FirstNotConcat(keys[..n], [keys[n]], excluded);
      FirstNotConcat(FirstOccurrences(keys[..n]), [keys[n]], excluded);
    }
  }

  lemma {:induction false} FirstNotAt(keys: seq<string>, excluded: set<string>, k: nat)
    requires k < |keys| && keys[k] !in excluded && forall j :: 0 <= j < k ==> keys[j] in excluded
    ensures FirstNot(keys, excluded) == Some(keys[k])
  {
    if k > 0 {
      FirstNotAt(keys[1..], excluded, k - 1);
    }
  }

  ghost function To(calls: set<Call>, provider: string): set<Call> {
    set c | c in calls && c.provider == provider
  }

  class Dispatcher {
    const registry: RoleRegistry
    const role: string
    const attempts: nat -> Attempt
    const meanwhile: nat -> Meanwhile
    const connected: nat -> bool
    const expired: nat -> bool
    const answers: nat -> Answer
    const busy: nat -> Option<string>
    const ends: nat -> Option<Call>
    var tick: nat
    var nextId: nat
    var inFlight: map<string, nat>
    var pending: set<Call>
    var active: set<Call>

    // History: calls others began and ended, who was tried, and who was stopped since it was not alive.
    ghost var others: set<Call>
    ghost var ended: set<Call>
    ghost var tried: seq<Try>
    ghost var stopped: seq<string>

    /** A provider's count is the number of calls under way to it. */
    ghost predicate Valid()
      reads this, registry
    {
      && registry.Valid()
      && (forall p :: p in inFlight ==> inFlight[p] == |To(active, p)|)
      && (forall c :: c in active ==> c.provider in inFlight && c.id < nextId)
      && (forall c :: c in others + ended ==> c.id < nextId)
      && pending <= active
    }

    method Begin(provider: string) returns (call: Call)
      requires Valid()
      modifies `inFlight, `nextId, `pending, `active
      ensures Valid() && call.provider == provider && call !in old(active) + others + ended
      ensures active == old(active) + {call} && pending == old(pending) + {call}
      ensures nextId == old(nextId) + 1 == call.id + 1
    {
      call := Call(provider, nextId);
      OneMore(active, call, provider);
      inFlight := inFlight[provider := (if provider in inFlight then inFlight[provider] else 0) + 1];
      nextId := nextId + 1;
      pending := pending + {call};
      active := active + {call};
    }

    constructor (registry: RoleRegistry, role: string, attempts: nat -> Attempt, meanwhile: nat -> Meanwhile,
                 connected: nat -> bool, expired: nat -> bool, answers: nat -> Answer, busy: nat -> Option<string>,
                 ends: nat -> Option<Call>)
      requires registry.Valid()
      ensures Valid() && this.registry == registry && this.role == role && active == {} && tried == [] && stopped == []
    {
      this.registry, this.role, this.attempts, this.meanwhile := registry, role, attempts, meanwhile;
      this.connected, this.expired, this.answers, this.busy, this.ends := connected, expired, answers, busy, ends;
      tick, nextId, inFlight, pending := 0, 1, map[], {};
      active, others, ended, tried, stopped := {}, {}, {}, [], [];
    }

    /** The end of a call, however it ended. The count cannot fall below zero. */
    method Finish(call: Call)
      requires Valid() && call in active
      modifies `inFlight, `pending, `active
      ensures Valid() && active == old(active) - {call} && pending == old(pending) - {call}
      ensures old(inFlight)[call.provider] > 0
    {
      OneLess(active, call);
      pending := pending - {call};
      active := active - {call};
      var n := inFlight[call.provider];
      inFlight := inFlight[call.provider := if n == 0 then n else n - 1];
    }

    /** Another task begins a call. */
    method OtherBegins(provider: string, ghost mine: Call)
      requires Valid() && mine in active && mine !in others + ended
      modifies `inFlight, `nextId, `pending, `active, `others
      ensures Valid() && mine in active && mine !in others + ended && old(others) <= others
      ensures old(active) <= active <= old(active) + others
    {
      hide To, LeaseInv;
      var call := Begin(provider);
      others := others + {call};
    }

    /** Another task's call ends. */
    method OtherEnds(call: Call, ghost mine: Call)
      requires Valid() && mine in active && mine !in ended && call in active && call != mine
      modifies `inFlight, `pending, `active, `ended
      ensures Valid() && mine in active && mine !in ended && old(ended) <= ended
      ensures old(active) - ended <= active <= old(active)
    {
      hide To, LeaseInv;
      Finish(call);
      ended := ended + {call};
    }

    /** While a call waits, other tasks begin and end calls of their own, and a channel may be closed, which forgets
        what is pending on it. */
    method OtherTasks(mine: Call)
      requires Valid() && mine in active && mine !in others + ended
      modifies `tick, `inFlight, `nextId, `pending, `active, `others, `ended
      ensures Valid() && mine in active && mine !in others + ended && old(others) <= others && old(ended) <= ended
      ensures old(active) - ended <= active <= old(active) + others
    {
      hide To, LeaseInv;
      var begins, closes, finished := busy(tick), busy(tick + 1), ends(tick);
      tick := tick + 2;
      if begins.Some? {
        OtherBegins(begins.value, mine);
      }
      if finished.Some? && finished.value in active && finished.value != mine {
        OtherEnds(finished.value, mine);
      }
      if closes.Some? {
        pending := set c | c in pending && c.provider != closes.value;
      }
    }

    /** What comes of trying a provider at this point of the streams. */
    function OutcomeAt(t: nat): Outcome {
      if !connected(t) then Unconnected else if expired(t + 1) then TooLate else Put(answers(t + 1))
    }

    /** Forwards a call to a provider and waits. Whatever happens, the call is over and accounted for at the end. */
    method ForwardCall(provider: string) returns (r: Response)
      requires Valid()
      modifies `tick, `inFlight, `nextId, `pending, `active, `others, `ended, `tried
      ensures Valid() && old(others) <= others && old(ended) <= ended
      ensures old(active) - ended <= active <= old(active) + others
      ensures tried == old(tried) + [Try(provider, OutcomeAt(old(tick)), Holds(provider))]
      ensures r == ResponseTo(OutcomeAt(old(tick)))
    {
      hide To, Holds, RoleRegistry.Valid;
      tried := tried + [Try(provider, OutcomeAt(tick), Holds(provider))];
      var usable := connected(tick);
      tick := tick + 1;
      if !usable {
        return Error(NO_PROVIDER_SOCKET, false);
      }
      var call := Begin(provider);
      if expired(tick) {
        Finish(call);
        return Error("CALL_TIMEOUT", true);
      }
      var answer := answers(tick);
      tick := tick + 1;
      OtherTasks(call);
      Finish(call);
      r := ResponseTo(Put(answer));
    }

    // ---- Leases ----

    predicate Holds(provider: string)
      reads registry
      requires registry.Valid()
    {
      role in registry.roles && provider in registry.ActiveProviders(role)
    }

    ghost function Leases(): seq<Lease>
      reads registry
      requires registry.Valid()
    {
      if role in registry.roles then registry.ActiveLeases(role) else []
    }

    ghost predicate Eligible(provider: string) {
      role in registry.roles && IsCandidateOf(registry.roles[role], provider)
    }

    /** Other tasks run: somebody may be gone with all its roles, or take one. */
    method Elapse()
      requires registry.Valid()
      modifies `tick, registry`leases, registry`roleLeases, registry`nextToken
      ensures registry.Valid() && tick == old(tick) + 1
      ensures Serene() ==> Leases() == old(Leases())
    {
      hide IsCandidateOf, LeaseInv;
      var event := meanwhile(tick);
      tick := tick + 1;
      match event {
        case Quiet =>
        case Gone(provider) =>
          var _ := registry.ReleaseProvider(provider);
        case Takes(other, provider, holder) =>
          var _ := registry.Acquire(other, Some(provider), Some(holder));
      }
    }

    /** A usable candidate takes the role, unless it is the first to hold it; that fails if the role may be held once
        and somebody else holds it. */
    method Take(key: string) returns (ok: bool)
      requires registry.Valid() && Eligible(key)
      modifies registry`leases, registry`roleLeases, registry`nextToken
      ensures registry.Valid() && (ok ==> Holds(key))
      ensures ok <==> (old(Leases()) != [] && old(Leases())[0].provider == key) || !registry.roles[role].exclusive ||
                      old(Leases()) == []
      ensures if ok then old(Leases()) <= Leases() else Leases() == old(Leases())
      ensures forall l :: l in Leases() && l !in old(Leases()) ==> l.provider == key
    {
      hide IsCandidateOf, LeaseInv;
      ghost var before := Leases();
      ok := registry.ActiveProvider(role) == Some(key);
      Active(before);
      if !ok {
        var r := registry.Acquire(role, Some(key), Some(key));
        ok := r.Ok?;
        if ok {
          assert Providers(Leases())[|before|] == key;
        }
      }
    }

    lemma Active(leases: seq<Lease>)
      requires registry.Valid() && leases == Leases() && role in registry.roles
      ensures registry.ActiveProvider(role) == if leases == [] then None else Some(leases[0].provider)
      ensures leases != [] ==> Holds(leases[0].provider)
      ensures forall p :: Holds(p) <==> p in Providers(leases)
    {
      if leases != [] {
        assert Providers(leases)[0] == leases[0].provider;
      }
    }

    /** Nobody else does anything, and everybody is usable. */
    ghost predicate Serene() {
      (forall t :: attempts(t).Usable?) && (forall t :: meanwhile(t).Quiet?)
    }

    /** Looks for a provider that is not excluded, and gives it the role: who holds it first, then who is preferred,
        then the others. Whoever turns out not to be usable loses all roles. If the catalog has changed meanwhile, the
        lookup begins again, three times at most. Nobody is found only if everybody was looked at, or three rounds were
        given up. */
    method ProviderForRole(excluded: set<string>) returns (r: Option<string>)
      requires registry.Valid()
      modifies `tick, registry`leases, registry`roleLeases, registry`nextToken
      ensures registry.Valid() && tick >= old(tick)
      ensures r.Some? ==> Eligible(r.value) && r.value !in excluded && Holds(r.value)
      ensures role !in registry.roles ==> r.None?
      ensures r.Some? ==> tick > old(tick) && attempts(tick - 1).Usable?
      ensures r.None? && role in registry.roles ==>
        || tick >= old(tick) + |Candidates() - excluded|
        || (tick >= old(tick) + 3 && attempts(tick - 1).CatalogChanged?)
      ensures Serene() && role in registry.roles ==>
        r == Found(registry.roles[role], registry.PreferredProvider(role), old(Leases()), excluded)
      ensures Serene() ==> forall l :: l in Leases() && l !in old(Leases()) ==> r == Some(l.provider)
    {
      hide IsCandidateOf, LeaseInv, Candidates, Eligible, Found, RoleRegistry.Valid;
      r := None;
      for round := 0 to 3
        invariant registry.Valid() && r.None? && tick >= old(tick) + round
        invariant round > 0 ==> attempts(tick - 1).CatalogChanged?
        invariant round > 0 ==> !Serene() && role in registry.roles
        invariant round == 0 ==> Leases() == old(Leases())
      {
        if role !in registry.roles {
          return;
        }
        var again;
        r, again := Round(excluded);
        if !again {
          return;
        }
      }
    }

    /** A candidate is made ready, and takes the role unless it cannot. */
    method TryCandidate(key: string) returns (ok: bool, again: bool)
      requires registry.Valid() && Eligible(key)
      modifies `tick, registry`leases, registry`roleLeases, registry`nextToken
      ensures registry.Valid() && tick == old(tick) + 1 && (again ==> !ok && !Serene()) && (ok ==> Holds(key))
      ensures (again <==> attempts(old(tick)).CatalogChanged?) && (ok ==> attempts(old(tick)).Usable?)
      ensures attempts(old(tick)).NotReady? || attempts(old(tick)).Stale? ==>
        forall l :: l in Leases() ==> l.provider != key
      ensures Serene() ==> (ok <==> CanTake(key, old(Leases())))
      ensures Serene() && !ok ==> Leases() == old(Leases())
      ensures Serene() ==> forall l :: l in Leases() && l !in old(Leases()) ==> l.provider == key
    {
      hide IsCandidateOf, LeaseInv;
      var attempt := attempts(tick);
      Elapse();
      ok, again := false, false;
      match attempt {
        case CatalogChanged =>
          again := true;
        case Usable =>
          ok := Take(key);
        case _ =>
          ghost var before := Leases();
          var _ := registry.ReleaseProvider(key);
          OthersFacts(before, key);
      }
    }

    /** Is it the first to hold the role, or may it become a holder? */
    predicate CanTake(key: string, leases: seq<Lease>)
      requires role in registry.roles
    {
      (leases != [] && leases[0].provider == key) || !registry.roles[role].exclusive || leases == []
    }

    /** One round of a lookup. */
    method Round(excluded: set<string>) returns (r: Option<string>, again: bool)
      requires registry.Valid() && role in registry.roles
      modifies `tick, registry`leases, registry`roleLeases, registry`nextToken
      ensures registry.Valid() && tick >= old(tick) && (again ==> r.None? && !Serene())
      ensures r.Some? ==> tick > old(tick) && attempts(tick - 1).Usable?
      ensures again ==> tick > old(tick) && attempts(tick - 1).CatalogChanged?
      ensures r.None? && !again ==> tick == old(tick) + |Candidates() - excluded|
      ensures r.Some? ==> Eligible(r.value) && r.value !in excluded && Holds(r.value)
      ensures Serene() ==> r == Found(registry.roles[role], registry.PreferredProvider(role), old(Leases()), excluded)
      ensures Serene() ==> forall l :: l in Leases() && l !in old(Leases()) ==> r == Some(l.provider)
    {
      hide IsCandidateOf, LeaseInv, Found, Serene, PassedOver, Ordered, Elements, Distinct, Candidates, Eligible;
      ghost var before := Leases();
      var ordered := Ordered(registry.roles[role], registry.PreferredProvider(role), registry.ActiveLeases(role));
      OrderedAreCandidates();
      NobodyPassedOver(ordered, before, excluded);
      r, again := None, false;
      NobodyLookedAt(ordered, excluded);
      for k := 0 to |ordered|
        invariant registry.Valid() && tick == old(tick) + |Elements(ordered[..k]) - excluded|
        invariant Serene() ==> Leases() == before && PassedOver(ordered, k, before, excluded)
      {
        var ok;
        OneMoreLookedAt(ordered, k, excluded);
        if ordered[k] in excluded {
          ok := false;
        } else {
          ok, again := TryCandidate(ordered[k]);
          if again {
            return;
          }
          if ok {
            r := Some(ordered[k]);
            if Serene() {
              SereneFind(ordered, k, before, excluded);
            }
            return;
          }
        }
        if Serene() {
          OnePassedOver(ordered, k, before, excluded);
        }
      }
      if Serene() {
        SereneMiss(ordered, before, excluded);
      }
      again := false;
      AllLookedAt(ordered);
    }

    lemma NobodyLookedAt(ordered: seq<string>, excluded: set<string>)
      ensures |Elements(ordered[..0]) - excluded| == 0
    {
      assert Elements(ordered[..0]) - excluded == {};
    }

    lemma OneMoreLookedAt(ordered: seq<string>, k: nat, excluded: set<string>)
      requires k < |ordered| && Distinct(ordered)
      ensures |Elements(ordered[..k+1]) - excluded| ==
              |Elements(ordered[..k]) - excluded| + if ordered[k] in excluded then 0 else 1
    {
      assert ordered[..k+1] == ordered[..k] + [ordered[k]];
      assert Elements(ordered[..k+1]) == Elements(ordered[..k]) + {ordered[k]};
      if ordered[k] in excluded {
        assert Elements(ordered[..k+1]) - excluded == Elements(ordered[..k]) - excluded;
      } else {
        assert Elements(ordered[..k+1]) - excluded == (Elements(ordered[..k]) - excluded) + {ordered[k]};
        forall i | 0 <= i < k ensures ordered[..k][i] != ordered[k] {}
      }
    }

    lemma AllLookedAt(ordered: seq<string>)
      requires forall key :: key in ordered <==> Eligible(key)
      ensures Elements(ordered[..|ordered|]) == Candidates()
    {
      hide IsCandidateOf;
      assert ordered[..|ordered|] == ordered;
    }

    lemma NobodyPassedOver(ordered: seq<string>, leases: seq<Lease>, excluded: set<string>)
      requires role in registry.roles
      ensures PassedOver(ordered, 0, leases, excluded)
    {
    }

    lemma OnePassedOver(ordered: seq<string>, k: nat, leases: seq<Lease>, excluded: set<string>)
      requires role in registry.roles && k < |ordered| && PassedOver(ordered, k, leases, excluded)
      requires leases != [] ==> ordered[0] == leases[0].provider
      requires ordered[k] in excluded || !CanTake(ordered[k], leases)
      ensures PassedOver(ordered, k + 1, leases, excluded)
    {
    }

    /** So far everybody was excluded, or could not take the role since somebody excluded holds it. */
    ghost predicate PassedOver(ordered: seq<string>, k: nat, leases: seq<Lease>, excluded: set<string>)
      requires role in registry.roles && k <= |ordered|
    {
      if registry.roles[role].exclusive && leases != [] && leases[0].provider in excluded then true
      else forall j :: 0 <= j < k ==> ordered[j] in excluded
    }

    lemma OrderedAreCandidates()
      requires registry.Valid() && role in registry.roles
      ensures var ordered := Ordered(registry.roles[role], registry.PreferredProvider(role),
                                     registry.ActiveLeases(role));
        && (forall key :: key in ordered <==> Eligible(key)) && Distinct(ordered)
        && (Leases() != [] ==> ordered != [] && ordered[0] == Leases()[0].provider)
    {
      hide LeaseInv;
      var s, preferred, leases := registry.roles[role], registry.PreferredProvider(role), registry.ActiveLeases(role);
      registry.ActiveFacts(role);
      if preferred.Some? {
        registry.PreferredIsCandidate(role);
      }
      if leases != [] {
        assert leases[0] in leases;
      }
      forall key ensures key in Names(s.candidates) <==> IsCandidateOf(s, key) {
        if IsCandidateOf(s, key) {
          var k :| 0 <= k < |s.candidates| && s.candidates[k].provider == key;
          assert Names(s.candidates)[k] == key;
        }
      }
    }

    lemma SereneFind(ordered: seq<string>, k: nat, leases: seq<Lease>, excluded: set<string>)
      requires role in registry.roles && k < |ordered| && ordered[k] !in excluded
      requires ordered == Ordered(registry.roles[role], registry.PreferredProvider(role), leases)
      requires PassedOver(ordered, k, leases, excluded)
      requires CanTake(ordered[k], leases)
      ensures Found(registry.roles[role], registry.PreferredProvider(role), leases, excluded) == Some(ordered[k])
    {
      FirstNotAt(ordered, excluded, k);
    }

    lemma SereneMiss(ordered: seq<string>, leases: seq<Lease>, excluded: set<string>)
      requires role in registry.roles && PassedOver(ordered, |ordered|, leases, excluded)
      requires ordered == Ordered(registry.roles[role], registry.PreferredProvider(role), leases)
      ensures Found(registry.roles[role], registry.PreferredProvider(role), leases, excluded) == None
    {
    }

    /** A lookup that finds nobody leaves no candidate out, if nobody who is excluded holds the role. */
    lemma NobodyLeft(leases: seq<Lease>, excluded: set<string>)
      requires registry.Valid() && forall l :: l in leases ==> l.provider !in excluded
      ensures role in registry.roles &&
              Found(registry.roles[role], registry.PreferredProvider(role), leases, excluded) == None ==>
        forall c :: c in Candidates() ==> c in excluded
      ensures role !in registry.roles ==> Candidates() == {}
    {
      if role in registry.roles {
        NamesAreCandidates(registry.roles[role]);
        assert leases != [] ==> leases[0] in leases;
      }
    }

    // ---- Calls to the role ----

    /** A provider that was not alive is stopped: it holds no role any more, unless other tasks give it one. */
    method Stop(provider: string)
      requires Valid()
      modifies `tick, `stopped, registry`leases, registry`roleLeases, registry`nextToken
      ensures Valid() && stopped == old(stopped) + [provider]
      ensures Serene() ==> Leases() == Others(old(Leases()), provider)
    {
      hide To, LeaseInv;
      var _ := registry.ReleaseProvider(provider);
      stopped := stopped + [provider];
      Elapse();
    }

    /** Every candidate can be made ready and is connected, no other task touches the leases, and the deadline is
        ahead. */
    ghost predicate Open() {
      Serene() && (forall t :: connected(t)) && (forall t :: !expired(t))
    }

    ghost function Candidates(): (keys: set<string>)
      ensures forall key :: key in keys <==> Eligible(key)
    {
      if role in registry.roles then
        NamesAreCandidates(registry.roles[role]);
        set key | key in Names(registry.roles[role].candidates)
      else {}
    }

    /** A call to a role. No provider is tried twice, each held the role when it was tried, and a call that may not be
        repeated goes on to another provider only if none before it had a channel or said so itself. The caller is told
        what came of the last try, and that there is no provider exactly if nobody was tried. Exactly those who turn out
        not to be alive are stopped. If candidates are open, an answer that allows it always leads to another provider
        as long as there is one. Counts and pending calls are as before, other tasks' calls apart. */
    method DispatchRoleCall(retrySafe: bool) returns (r: Response)
      requires Valid()
      modifies this, registry`leases, registry`roleLeases, registry`nextToken
      ensures Valid() && old(others) <= others && old(ended) <= ended
      ensures old(active) - ended <= active <= old(active) + others
      ensures old(tried) <= tried && Tries(tried[|old(tried)|..], retrySafe)
      ensures r == Verdict(tried[|old(tried)|..], retrySafe)
      ensures old(stopped) <= stopped && Buried(tried[|old(tried)|..], stopped[|old(stopped)|..])
      ensures Open() && (forall t :: answers(t) == Reply) && Candidates() != {} ==> r == Returned
      ensures Open() ==> Exhausts(tried[|old(tried)|..], retrySafe, Candidates())
    {
      hide To, LeaseInv, IsCandidateOf, TriesAgain, Dead, Told, ResponseTo, Exhausts, Failed, Tries, Buried, Found,
           Others, Distinct, Elements, Reached, Verdict, FirstNot, Ordered, Serene, RoleRegistry.Valid;
      var attempted: set<string> := {};
      r := Error("NO_PROVIDER", false);
      NobodyTried(tried, stopped, retrySafe);
      while true
        invariant Valid() && old(others) <= others && old(ended) <= ended && old(tried) <= tried
        invariant old(active) - ended <= active <= old(active) + others
        invariant old(stopped) <= stopped &&
          Failed(tried[|old(tried)|..], stopped[|old(stopped)|..], attempted, retrySafe)
        invariant attempted <= Candidates() && r == Verdict(tried[|old(tried)|..], retrySafe)
        invariant (forall t :: answers(t) == Reply) && Open() ==> attempted == {}
        invariant Open() ==> FreeOf(attempted) && Reached(tried[|old(tried)|..])
        decreases Candidates() - attempted
      {
        ghost var leases := Leases();
        var provider := ProviderForRole(attempted);
        if provider.None? {
          if Open() {
            NobodyLeft(leases, attempted);
          }
          AllFailed(tried[|old(tried)|..], stopped[|old(stopped)|..], attempted, retrySafe, Candidates());
          return;
        }
        ghost var before, gone := tried, stopped;
        var settled;
        r, settled := Ask(provider.value, retrySafe, attempted);
        OneMoreTry(old(tried), before, tried, old(stopped), gone, stopped, attempted, tried[|before|], retrySafe,
                   Candidates());
        if settled {
          return;
        }
        attempted := attempted + {provider.value};
      }
    }

    /** A provider that holds the role is tried. If that settles the call, this is the response; otherwise the provider
        was not alive, and is stopped. */
    method Ask(provider: string, retrySafe: bool, ghost attempted: set<string>) returns (r: Response, settled: bool)
      requires Valid() && Holds(provider) && (Open() ==> FreeOf(attempted))
      modifies this, registry`leases, registry`roleLeases, registry`nextToken
      ensures Valid() && old(others) <= others && old(ended) <= ended
      ensures old(active) - ended <= active <= old(active) + others
      ensures var o := OutcomeAt(old(tick));
        && tried == old(tried) + [Try(provider, o, true)]
        && stopped == old(stopped) + (if Dead(ResponseTo(o)) then [provider] else [])
        && r == Told(retrySafe, o) && (settled <==> !TriesAgain(retrySafe, ResponseTo(o)))
      ensures Open() && !settled ==> FreeOf(attempted + {provider})
      ensures Open() ==> OutcomeAt(old(tick)).Put?
      ensures Open() && (forall t :: answers(t) == Reply) ==> settled && r == Returned
    {
      hide To, LeaseInv, IsCandidateOf, TriesAgain, Dead, ResponseTo, Others, Serene, Holds, Eligible;
      r := ForwardCall(provider);
      RepliesReturn();
      Decided(retrySafe, r);
      Elapse();
      settled := r.Returned? || r.expired || r.code !in LIVENESS;
      if settled {
        return;
      }
      ghost var leases := Leases();
      Stop(provider);
      OthersFacts(leases, provider);
      assert Open() ==> FreeOf(attempted + {provider});
      if !retrySafe && r.code != NO_PROVIDER_SOCKET {
        r, settled := Error("OUTCOME_UNKNOWN", false), true;
      }
    }

    /** None of these holds the role. */
    ghost predicate FreeOf(keys: set<string>)
      reads registry
      requires registry.Valid()
    {
      forall l :: l in Leases() ==> l.provider !in keys
    }
  }

  lemma NamesAreCandidates(s: RoleState)
    ensures forall key :: key in Names(s.candidates) <==> IsCandidateOf(s, key)
  {
    forall key | IsCandidateOf(s, key) ensures key in Names(s.candidates) {
      var k :| 0 <= k < |s.candidates| && s.candidates[k].provider == key;
      assert Names(s.candidates)[k] == key;
    }
  }

  function Whom(tries: seq<Try>): (r: seq<string>)
    ensures |r| == |tries| && forall k :: 0 <= k < |r| ==> r[k] == tries[k].provider
  {
    seq(|tries|, k requires 0 <= k < |tries| => tries[k].provider)
  }

  lemma RepliesReturn()
    ensures ResponseTo(Put(Reply)) == Returned
  {
  }

  lemma Decided(retrySafe: bool, r: Response)
    ensures Dead(r) <==> r.Error? && !r.expired && r.code in LIVENESS
    ensures TriesAgain(retrySafe, r) <==> Dead(r) && (retrySafe || r.code == NO_PROVIDER_SOCKET)
  {
  }

  /** What a dispatch has tried: different providers that held the role, and after each but the last, trying again was
      right. */
  ghost predicate Tries(tries: seq<Try>, retrySafe: bool) {
    && (forall t :: t in tries ==> t.held)
    && (forall i, j :: 0 <= i < j < |tries| ==> tries[i].provider != tries[j].provider)
    && (forall k :: 0 <= k < |tries| - 1 ==> TriesAgain(retrySafe, ResponseTo(tries[k].outcome)))
  }

  /** Whom a dispatch has stopped: of those it tried, in this order, exactly the ones that are not alive. */
  ghost predicate Buried(tries: seq<Try>, stopped: seq<string>) {
    && (forall t :: t in tries ==> (t.provider in stopped <==> Dead(ResponseTo(t.outcome))))
    && stopped <= Whom(tries)
  }

  /** All of them had a channel, before the deadline. */
  ghost predicate Reached(tries: seq<Try>) {
    forall t :: t in tries ==> t.outcome.Put?
  }

  /** Everybody was reached and, unless the last answer settles the call, that is all these candidates. */
  ghost predicate Exhausts(tries: seq<Try>, retrySafe: bool, candidates: set<string>) {
    && Reached(tries)
    && (tries == [] || TriesAgain(retrySafe, ResponseTo(tries[|tries|-1].outcome)) ==>
          forall c :: c in candidates ==> c in Whom(tries))
  }

  /** Everything tried so far failed in a way that makes trying again right; all these were stopped. */
  ghost predicate Failed(tries: seq<Try>, stopped: seq<string>, attempted: set<string>, retrySafe: bool) {
    && Tries(tries, retrySafe) && Whom(tries) == stopped && attempted == Elements(stopped)
    && forall t :: t in tries ==> TriesAgain(retrySafe, ResponseTo(t.outcome))
  }

  lemma NobodyTried(tried: seq<Try>, stopped: seq<string>, retrySafe: bool)
    ensures Failed(tried[|tried|..], stopped[|stopped|..], {}, retrySafe) && Reached(tried[|tried|..])
    ensures Verdict(tried[|tried|..], retrySafe) == Error("NO_PROVIDER", false)
  {
  }

  lemma AllFailed(tries: seq<Try>, stopped: seq<string>, attempted: set<string>, retrySafe: bool,
                  candidates: set<string>)
    requires Failed(tries, stopped, attempted, retrySafe)
    ensures Tries(tries, retrySafe) && Buried(tries, stopped)
    ensures Reached(tries) && (forall c :: c in candidates ==> c in attempted) ==>
      Exhausts(tries, retrySafe, candidates)
  {
    hide ResponseTo;
    forall t | t in tries ensures t.provider in stopped {
      var k :| 0 <= k < |tries| && tries[k] == t;
      assert Whom(tries)[k] == t.provider;
    }
  }

  lemma OneMoreTry(start: seq<Try>, before: seq<Try>, after: seq<Try>, alive: seq<string>, gone: seq<string>,
                   stopped: seq<string>, attempted: set<string>, t: Try, retrySafe: bool, candidates: set<string>)
    requires start <= before && alive <= gone && t.provider !in attempted && t.held
    requires Failed(before[|start|..], gone[|alive|..], attempted, retrySafe) && after == before + [t]
    requires stopped == gone + (if Dead(ResponseTo(t.outcome)) then [t.provider] else [])
    ensures start <= after && alive <= stopped && Tries(after[|start|..], retrySafe)
    ensures Verdict(after[|start|..], retrySafe) == Told(retrySafe, t.outcome)
    ensures Buried(after[|start|..], stopped[|alive|..])
    ensures Reached(before[|start|..]) && t.outcome.Put? ==> Reached(after[|start|..])
    ensures if TriesAgain(retrySafe, ResponseTo(t.outcome))
            then Failed(after[|start|..], stopped[|alive|..], attempted + {t.provider}, retrySafe)
            else Reached(after[|start|..]) ==> Exhausts(after[|start|..], retrySafe, candidates)
  {
    hide ResponseTo, Told, TriesAgain, Failed, Tries, Buried, Dead, Elements;
    var tries, dead := before[|start|..], gone[|alive|..];
    assert after[|start|..] == tries + [t];
    assert (gone + [t.provider])[|alive|..] == dead + [t.provider];
    assert stopped[|alive|..] == if Dead(ResponseTo(t.outcome)) then dead + [t.provider] else dead;
    Decided(retrySafe, ResponseTo(t.outcome));
    TriedOneMore(tries, dead, attempted, t, retrySafe);
  }

  lemma TriedOneMore(tries: seq<Try>, stopped: seq<string>, attempted: set<string>, t: Try, retrySafe: bool)
    requires Failed(tries, stopped, attempted, retrySafe) && t.provider !in attempted && t.held
    ensures Tries(tries + [t], retrySafe)
    ensures Buried(tries + [t], if Dead(ResponseTo(t.outcome)) then stopped + [t.provider] else stopped)
    ensures TriesAgain(retrySafe, ResponseTo(t.outcome)) ==>
      Failed(tries + [t], stopped + [t.provider], attempted + {t.provider}, retrySafe)
  {
    hide ResponseTo;
    var more := tries + [t];
    assert Whom(more) == stopped + [t.provider];
    forall k | 0 <= k < |tries| ensures tries[k].provider in attempted && tries[k] in tries {
      assert Whom(tries)[k] == stopped[k];
    }
  }

  /** A call that may not be repeated is put on one provider's channel at most, unless a provider itself answers with
      the reserved code: whoever was tried before the last one had no channel, or gave that answer. */
  lemma AtMostOneProvider(tries: seq<Try>)
    requires Tries(tries, false)
    ensures forall k :: 0 <= k < |tries| - 1 ==>
      tries[k].outcome == Unconnected || tries[k].outcome == Put(ReplyError(NO_PROVIDER_SOCKET))
    ensures (forall t :: t in tries ==> t.outcome != Put(ReplyError(NO_PROVIDER_SOCKET))) ==>
      forall i, j :: 0 <= i < |tries| && 0 <= j < |tries| && tries[i].outcome.Put? && tries[j].outcome.Put? ==> i == j
  {
    forall k | 0 <= k < |tries| - 1
      ensures tries[k].outcome == Unconnected || tries[k].outcome == Put(ReplyError(NO_PROVIDER_SOCKET))
    {
      OnlyTheReservedCode(tries[k].outcome);
    }
  }

  /** Exactly then: with two candidates that are open, a call that may not be repeated reaches a second provider if and
      only if the first one answers with the reserved code. */
  lemma SecondIsAsked(tries: seq<Try>, candidates: set<string>, a: string, b: string)
    requires Tries(tries, false) && Exhausts(tries, false, candidates) && a in candidates && b in candidates
    requires a != b
    ensures tries != []
    ensures |tries| > 1 <==> tries[0].outcome == Put(ReplyError(NO_PROVIDER_SOCKET))
  {
    hide TriesAgain, ResponseTo;
    assert a in Whom(tries) && b in Whom(tries) ==> |tries| > 1;
    if tries != [] {
      OnlyTheReservedCode(tries[0].outcome);
      assert tries[0] in tries;
    }
  }

  /** What the caller learns. It gets a reply exactly if that is what came last. Nobody to be found means that nobody
      was tried, unless a provider says so itself; not knowing what became of a call, which is told only to callers
      whose call may not be repeated, means that the last one it was put on was not alive afterwards, again unless a
      provider says so itself. */
  lemma WhatTheCallerLearns(tries: seq<Try>, retrySafe: bool, r: Response)
    requires Tries(tries, retrySafe) && r == Verdict(tries, retrySafe)
    ensures r == Returned <==> tries != [] && tries[|tries| - 1].outcome == Put(Reply)
    ensures r == Error("NO_PROVIDER", false) <==>
            tries == [] || tries[|tries| - 1].outcome == Put(ReplyError("NO_PROVIDER"))
    ensures r == Error("OUTCOME_UNKNOWN", false) <==>
            tries != [] && var o := tries[|tries| - 1].outcome;
              || o == Put(ReplyError("OUTCOME_UNKNOWN"))
              || (!retrySafe && o.Put? && Dead(ResponseTo(o)) && o != Put(ReplyError(NO_PROVIDER_SOCKET)))
  {
    if tries != [] {
      var o := tries[|tries| - 1].outcome;
      var code := if o.Put? && o.answer.ReplyError? then o.answer.code else "";
      ToldInFull(retrySafe, code);
      assert "OUTCOME_UNKNOWN"[0] == 'O' && "NO_PROVIDER"[0] == 'N' && |NO_PROVIDER_SOCKET| > |"NO_PROVIDER"|;
      assert "CALL_TIMEOUT"[0] == 'C' && "CALL_SEND_FAILED"[0] == 'C' && "PROVIDER_EXITED"[0] == 'P' &&
             "PROVIDER_STOPPED"[0] == 'P' && "PROVIDER_CHANNEL_FAILED"[0] == 'P';
    }
  }

  lemma OneMore(active: set<Call>, call: Call, provider: string)
    requires call !in active && call.provider == provider
    ensures |To(active + {call}, provider)| == |To(active, provider)| + 1
    ensures forall p :: p != provider ==> To(active + {call}, p) == To(active, p)
  {
    assert To(active + {call}, provider) == To(active, provider) + {call};
  }

  lemma OneLess(active: set<Call>, call: Call)
    requires call in active
    ensures |To(active - {call}, call.provider)| == |To(active, call.provider)| - 1
    ensures forall p :: p != call.provider ==> To(active - {call}, p) == To(active, p)
  {
    assert To(active - {call}, call.provider) == To(active, call.provider) - {call};
  }
}
