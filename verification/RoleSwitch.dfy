/** Switching a role to another provider: a transaction over the registry, the durable
    overrides and the preference file.

    Whether a provider becomes ready, whether it is stale by then and whether the file can be
    written are read from arbitrary streams. What runs between two awaits is one step. */
module RoleSwitch {
  import opened RuntimePlanModel
  import opened RoleRegistryModel

  datatype Mode = Select | Reset | OtherMode

  /** What can be seen of a role: who holds it and for whom, in order; who is preferred; the durable override. */
  datatype RoleView = RoleView(grants: seq<Grant>, preferred: Option<string>, override: Option<string>)

  /** What other tasks may do to the leases while a provider is made ready: one is gone with all its roles, or not
      usable and loses them; or one is up, or asked for by a call to a role, and takes the role unless it may not. */
  datatype Meanwhile = Quiet | Gone(provider: string) | Takes(role: string, provider: string, holder: string)

  class Switcher {
    const registry: RoleRegistry
    const writable: nat -> bool
    const ready: nat -> Option<string>
    const current: nat -> bool
    const meanwhile: nat -> Meanwhile
    var tick: nat
    var overrides: map<string, string>
    var disk: map<string, string>

    ghost predicate Valid()
      reads this, registry
    {
      registry.Valid()
    }

    ghost function View(role: string): RoleView
      reads this, registry
      requires Valid() && role in registry.roles
    {
      RoleView(Grants(registry.ActiveLeases(role)), registry.PreferredProvider(role), Override(overrides, role))
    }

    constructor (registry: RoleRegistry, overrides: map<string, string>, writable: nat -> bool,
                 ready: nat -> Option<string>, current: nat -> bool, meanwhile: nat -> Meanwhile)
      requires registry.Valid()
      ensures Valid() && this.registry == registry && this.overrides == overrides == disk
    {
      this.registry, this.overrides, this.disk := registry, overrides, overrides;
      this.writable, this.ready, this.current, this.meanwhile := writable, ready, current, meanwhile;
      tick := 0;
    }

    /** Writes the overrides to the preference file, all or nothing. */
    method Persist() returns (ok: bool)
      modifies `tick, `disk
      ensures ok == writable(old(tick)) && tick == old(tick) + 1
      ensures disk == if ok then overrides else old(disk)
    {
      ok := writable(tick);
      tick := tick + 1;
      if ok {
        disk := overrides;
      }
    }

    /** Sets the preference the switch asks for; refuses if the default is not the provider to reset to. */
    method ApplyPreference(role: string, provider: string, mode: Mode) returns (ok: bool)
      requires Valid() && role in registry.roles && IsCandidateOf(registry.roles[role], provider)
      modifies `overrides, registry`preferred
      ensures Valid()
      ensures ok <==> Applicable(registry.roles[role], provider, mode)
      ensures ok <==> mode == Select || (mode == Reset && registry.roles[role].candidates != [] &&
                                         registry.roles[role].candidates[0].provider == provider)
      ensures ok ==> registry.PreferredProvider(role) == Some(provider)
      ensures ok ==> Override(overrides, role) == if mode == Select then Some(provider) else None
      ensures !ok ==> registry.preferred == old(registry.preferred) && overrides == old(overrides)
      ensures forall other :: other != role ==> Override(overrides, other) == Override(old(overrides), other)
      ensures forall other :: other in registry.roles && other != role ==>
        registry.PreferredProvider(other) == old(registry.PreferredProvider(other))
    {
      hide IsCandidateOf, LeaseInv;
      match mode {
        case Select =>
          var _ := registry.SelectPreferred(role, provider);
          overrides := overrides[role := provider];
          ok := true;
        case Reset =>
          var candidates := registry.roles[role].candidates;
          if candidates == [] || candidates[0].provider != provider {
            return false;
          }
          var _ := registry.ResetPreferred(role);
          overrides := overrides - {role};
          ok := true;
        case OtherMode =>
          ok := false;
      }
    }

    /** Puts leases back, in order: new tokens, same providers and holders. */
    method Restore(role: string, former: seq<Lease>)
      requires Valid() && role in registry.roles
      requires forall l :: l in former ==> IsCandidateOf(registry.roles[role], l.provider)
      requires registry.roles[role].exclusive ==> |former| <= 1
      modifies registry`leases, registry`roleLeases, registry`nextToken
      ensures Valid() && Grants(registry.ActiveLeases(role)) == Grants(former)
      ensures forall other :: other in registry.roles && other != role ==>
        registry.ActiveLeases(other) == old(registry.ActiveLeases(other))
    {
      hide IsCandidateOf, LeaseInv;
      registry.ReleaseRole(role);
      for k := 0 to |former|
        invariant Valid() && |registry.ActiveLeases(role)| == k
        invariant Grants(registry.ActiveLeases(role)) == Grants(former[..k])
        invariant forall other :: other in registry.roles && other != role ==>
          registry.ActiveLeases(other) == old(registry.ActiveLeases(other))
      {
        var l := former[k];
        assert l in former && former[..k+1] == former[..k] + [l];
        if IsCandidateOf(registry.roles[role], l.provider) {
          var r := registry.Acquire(role, Some(l.provider), l.holder);
        }
      }
      assert former[..|former|] == former;
    }

    /** The state before a switch, as far as it has to be restored. */
    method RollBack(role: string, former: seq<Lease>, preferred: Option<string>, override: Option<string>)
      requires Valid() && role in registry.roles
      requires forall l :: l in former ==> IsCandidateOf(registry.roles[role], l.provider)
      requires registry.roles[role].exclusive ==> |former| <= 1
      requires preferred.Some? && IsCandidateOf(registry.roles[role], preferred.value)
      modifies `overrides, registry
      ensures Valid() && View(role) == RoleView(Grants(former), preferred, override)
      ensures forall other :: other in registry.roles && other != role ==> View(other) == old(View(other))
    {
      hide IsCandidateOf, LeaseInv;
      var _ := registry.SelectPreferred(role, preferred.value);
      overrides := if override.Some? then overrides[role := override.value] else overrides - {role};
      Restore(role, former);
    }

    /** Moves the role's lease to the provider, unless it holds it already. */
    method MoveLease(role: string, provider: string, holder: string)
      requires Valid() && role in registry.roles && IsCandidateOf(registry.roles[role], provider)
      modifies registry`leases, registry`roleLeases, registry`nextToken
      ensures Valid() && registry.ActiveProvider(role) == Some(provider)
      ensures Grants(registry.ActiveLeases(role)) ==
        if old(registry.ActiveProvider(role)) == Some(provider) then Grants(old(registry.ActiveLeases(role)))
        else [Grant(provider, Some(holder))]
      ensures forall other :: other in registry.roles && other != role ==>
        registry.ActiveLeases(other) == old(registry.ActiveLeases(other))
    {
      hide IsCandidateOf, LeaseInv;
      if registry.ActiveProvider(role) != Some(provider) {
        registry.ReleaseRole(role);
        var r := registry.Acquire(role, Some(provider), Some(holder));
      }
    }

    /** Preference, lease and file, in this order; it stops at the first that fails. */
    method Exchange(role: string, provider: string, mode: Mode, holder: string) returns (ok: bool)
      requires Valid() && role in registry.roles && IsCandidateOf(registry.roles[role], provider)
      modifies this, registry
      ensures Valid()
      ensures ok <==> Applicable(registry.roles[role], provider, mode) && writable(old(tick))
      ensures tick >= old(tick)
      ensures ok ==> disk == overrides && registry.ActiveProvider(role) == Some(provider)
      ensures !ok ==> disk == old(disk)
      ensures ok ==> View(role) == RoleView(
        if old(registry.ActiveProvider(role)) == Some(provider) then old(View(role)).grants
          else [Grant(provider, Some(holder))],
        Some(provider), if mode == Select then Some(provider) else None)
      ensures forall other :: other in registry.roles && other != role ==> View(other) == old(View(other))
    {
      hide IsCandidateOf, LeaseInv;
      ok := ApplyPreference(role, provider, mode);
      if ok {
        MoveLease(role, provider, holder);
        ok := Persist();
      }
    }

    /** The committing step of a switch. It succeeds completely or changes nothing that can be seen. */
    method Commit(role: string, provider: string, mode: Mode, holder: string) returns (ok: bool, retire: Option<string>)
      requires Valid() && role in registry.roles && IsCandidateOf(registry.roles[role], provider)
      modifies this, registry
      ensures Valid() && tick >= old(tick)
      ensures !ok ==> View(role) == old(View(role)) && disk == old(disk)
      ensures forall other :: other in registry.roles && other != role ==> View(other) == old(View(other))
      ensures ok ==> View(role) == RoleView(
        if old(registry.ActiveProvider(role)) == Some(provider) then old(View(role)).grants
          else [Grant(provider, Some(holder))],
        Some(provider), if mode == Select then Some(provider) else None)
      ensures ok ==> registry.ActiveProvider(role) == Some(provider)
      ensures ok <==> Exact(old(View(role)), old(registry.ActiveProvider(role)), provider, mode)
                      || (Applicable(registry.roles[role], provider, mode) && writable(old(tick)))
      ensures ok && !Exact(old(View(role)), old(registry.ActiveProvider(role)), provider, mode) ==> disk == overrides
      ensures mode != OtherMode && old(registry.ActiveProvider(role)) == old(View(role)).preferred == Some(provider) &&
              old(View(role)).override == (if mode == Select then Some(provider) else None) ==>
        ok && View(role) == old(View(role)) && disk == old(disk) && retire == None
      ensures retire == if ok && old(registry.ActiveProvider(role)).Some? &&
        old(registry.ActiveProvider(role)) != Some(provider) && Free(old(registry.ActiveProvider(role)).value)
        then old(registry.ActiveProvider(role)) else None
    {
      hide IsCandidateOf, LeaseInv;
      registry.ActiveFacts(role);
      registry.PreferredExists(role, provider);
      registry.PreferredIsCandidate(role);
      var former, active := registry.ActiveLeases(role), registry.ActiveProvider(role);
      var preferred, override := registry.PreferredProvider(role), Override(overrides, role);
      retire := None;
      if Exact(RoleView(Grants(former), preferred, override), active, provider, mode) {
        return true, None;
      }
      ok := Exchange(role, provider, mode, holder);
      if !ok {
        RollBack(role, former, preferred, override);
        return;
      }
      if active.Some? {
        IdleIsFree(active.value);
      }
      if active.Some? && active.value != provider && Idle(active.value) {
        retire := active;
      }
    }

    ghost predicate Free(provider: string)
      reads registry
      requires registry.Valid()
    {
      forall r, l :: r in registry.roles && l in registry.ActiveLeases(r) ==> l.provider != provider
    }

    lemma IdleIsFree(provider: string)
      requires Valid()
      ensures Idle(provider) <==> Free(provider)
    {
      hide LeaseInv;
      forall r | r in registry.roles
        ensures provider in registry.ActiveProviders(r) <==>
                exists l :: l in registry.ActiveLeases(r) && l.provider == provider
      {
        var leases := registry.ActiveLeases(r);
        if provider in registry.ActiveProviders(r) {
          var k :| 0 <= k < |leases| && Providers(leases)[k] == provider;
          assert leases[k] in leases;
        }
        if l :| l in leases && l.provider == provider {
          var k :| 0 <= k < |leases| && leases[k] == l;
          assert Providers(leases)[k] == provider;
        }
      }
    }

    /** Does the component hold no role at all? */
    predicate Idle(provider: string)
      reads this, registry
      requires Valid()
    {
      forall r :: r in registry.roles ==> provider !in registry.ActiveProviders(r)
    }

    /** Can the role be given to the provider in this way at all? */
    predicate Possible(role: string, provider: string, mode: Mode)
      reads registry
    {
      role in registry.roles && IsCandidateOf(registry.roles[role], provider) &&
      Applicable(registry.roles[role], provider, mode)
    }

    ghost predicate Undisturbed(from: nat, to: nat) {
      forall t :: from <= t < to ==> meanwhile(t).Quiet?
    }

    /** The provider holds the role, alone and for the process that became ready unless it held it before; it is
        preferred, durably if it was selected. */
    ghost predicate Switched(role: string, provider: string, mode: Mode, seen: RoleView, from: nat)
      reads this, registry
      requires Valid() && role in registry.roles
    {
      exists t :: from <= t < tick && current(t) && ready(t).Some? &&
        View(role) == RoleView(
          if HolderIn(seen) == Some(provider) then seen.grants else [Grant(provider, ready(t))],
          Some(provider), if mode == Select then Some(provider) else None)
    }

    /** The whole switch: the provider is made ready outside the step, and the step is tried again, three times at most,
        if things have changed meanwhile. `seen` is the role as the step found it: other tasks may have changed its
        leases by then, but not its preference. */
    method SwitchRole(role: string, provider: string, mode: Mode)
      returns (ok: bool, retire: Option<string>, ghost seen: Option<RoleView>)
      requires Valid()
      modifies this, registry
      ensures Valid()
      ensures seen.Some? <==> role in registry.roles
      ensures role in registry.roles ==>
        && seen.value.preferred == old(View(role)).preferred && seen.value.override == old(View(role)).override
        && (Undisturbed(old(tick), tick) ==> seen.value == old(View(role)))
      ensures !ok ==> (role in registry.roles ==> View(role) == seen.value) && disk == old(disk)
      ensures forall other :: other in registry.roles && other != role ==>
        && View(other).preferred == old(View(other)).preferred && View(other).override == old(View(other)).override
        && (Undisturbed(old(tick), tick) ==> View(other) == old(View(other)))
      ensures ok ==>
        && role in registry.roles && registry.ActiveProvider(role) == Some(provider)
        && View(role).preferred == Some(provider)
      ensures ok ==> Switched(role, provider, mode, seen.value, old(tick))
      ensures ok ==> disk == overrides || Exact(seen.value, HolderIn(seen.value), provider, mode)
      ensures retire == if ok && HolderIn(seen.value).Some? && HolderIn(seen.value) != Some(provider) &&
        Free(HolderIn(seen.value).value) then HolderIn(seen.value) else None
      ensures old(Possible(role, provider, mode)) && ready(old(tick)).Some? && current(old(tick)) ==>
        (writable(old(tick) + 1) ==> ok)
    {
      hide LeaseInv, IsCandidateOf, Exact, Applicable, Free, RoleRegistry.Valid, HolderIn, Override, Switched;
      ok, retire := false, None;
      ghost var sure := Possible(role, provider, mode) && ready(tick).Some? && current(tick);
      var holder;
      ghost var when;
      holder, when := MakeReady(role, provider);
      seen := if role in registry.roles then Some(View(role)) else None;
      if holder.Some? {
        ActiveHolds(role);
        ok, retire := Commit(role, provider, mode, holder.value);
        assert sure && writable(old(tick) + 1) ==> ok;
        if ok {
          ItIsSwitched(role, provider, mode, seen.value, old(tick), when);
        }
      }
    }

    lemma ItIsSwitched(role: string, provider: string, mode: Mode, seen: RoleView, from: nat, when: nat)
      requires Valid() && role in registry.roles && from <= when < tick && current(when) && ready(when).Some?
      requires View(role) == RoleView(
        if HolderIn(seen) == Some(provider) then seen.grants else [Grant(provider, ready(when))],
        Some(provider), if mode == Select then Some(provider) else None)
      ensures Switched(role, provider, mode, seen, from)
    {
      hide View, HolderIn, RoleRegistry.Valid;
    }

    lemma ActiveHolds(role: string)
      requires Valid() && role in registry.roles
      ensures registry.ActiveProvider(role) == HolderIn(View(role))
    {
      hide LeaseInv;
      var leases := registry.ActiveLeases(role);
      assert leases != [] ==> Providers(leases)[0] == leases[0].provider;
    }

    /** Makes the provider ready; again if it is stale by then. */
    method MakeReady(role: string, provider: string) returns (holder: Option<string>, ghost when: nat)
      requires Valid()
      modifies `tick, registry`leases, registry`roleLeases, registry`nextToken
      ensures Valid() && tick >= old(tick)
      ensures forall r :: r in registry.roles ==>
        View(r).preferred == old(View(r)).preferred && View(r).override == old(View(r)).override
      ensures Undisturbed(old(tick), tick) ==> forall r :: r in registry.roles ==> View(r) == old(View(r))
      ensures holder.Some? ==> role in registry.roles && IsCandidateOf(registry.roles[role], provider)
      ensures holder.Some? ==> old(tick) <= when < tick && current(when) && ready(when) == holder
      ensures role in registry.roles && IsCandidateOf(registry.roles[role], provider) ==>
        (ready(old(tick)).Some? && current(old(tick)) ==> holder.Some? && tick == old(tick) + 1)
    {
      hide IsCandidateOf, LeaseInv;
      when := tick;
      for attempt := 0 to 3
        invariant Valid() && tick == old(tick) + attempt
        invariant attempt > 0 ==> !current(old(tick))
        invariant Undisturbed(old(tick), tick) ==> forall r :: r in registry.roles ==> View(r) == old(View(r))
      {
        if role !in registry.roles || !IsCandidateOf(registry.roles[role], provider) {
          return None, when;
        }
        when := tick;
        var answer, still := ready(tick), current(tick);
        Elapse();
        if answer.None? || still {
          return answer, when;
        }
      }
      holder := None;
    }

    /** Other tasks run. */
    method Elapse()
      requires Valid()
      modifies `tick, registry`leases, registry`roleLeases, registry`nextToken
      ensures Valid() && tick == old(tick) + 1
      ensures meanwhile(old(tick)).Quiet? ==> forall r :: r in registry.roles ==> View(r) == old(View(r))
    {
      hide IsCandidateOf, LeaseInv;
      var event := meanwhile(tick);
      tick := tick + 1;
      match event {
        case Quiet =>
        case Gone(provider) =>
          var _ := registry.ReleaseProvider(provider);
        case Takes(role, provider, holder) =>
          var _ := registry.Acquire(role, Some(provider), Some(holder));
      }
    }
  }

  /** Who holds a role, by its view: the first. */
  function HolderIn(view: RoleView): Option<string> {
    if view.grants == [] then None else Some(view.grants[0].provider)
  }

  /** Is the requested state already there, exactly? */
  predicate Exact(view: RoleView, active: Option<string>, provider: string, mode: Mode) {
    && active == Some(provider) && view.preferred == Some(provider)
    && ((mode == Select && view.override == Some(provider)) || (mode == Reset && view.override == None))
  }

  function Override(overrides: map<string, string>, role: string): Option<string> {
    if role in overrides then Some(overrides[role]) else None
  }

  predicate Applicable(s: RoleState, provider: string, mode: Mode) {
    match mode
    case Select => true
    case Reset => s.candidates != [] && s.candidates[0].provider == provider
    case OtherMode => false
  }
}
