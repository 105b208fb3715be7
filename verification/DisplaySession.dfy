/** The display session: which process shows the screen, who depends on it, and how the
    supervisor moves the session to another provider or recovers it after a loss.

    Whether a component can be started or stopped, whether the preference file can be written,
    and what other tasks do whenever this one waits, is read from arbitrary streams. A component
    that inherits the session is not itself a candidate for the display role. A migration holds
    the lock under which clients of a lost display are suspended: a task that handles a loss
    waits for it, and what waits for that task never ends. */
module DisplaySession {
  import opened DependencyGraph
  import opened RuntimePlanModel
  import opened RoleRegistryModel
  import opened RoleSwitch
  import opened DisplayFence
  import opened DisplayScene
  import opened DisplayEvents
  import opened DisplayOutcome

  const GRACE_MS := 15_000

  class DisplayManager {
    const roles: Switcher
    const fence: Fence
    const automatic: set<string>
    const order: set<string> -> seq<string>
    const starts: nat -> StartAnswer
    const stops: nat -> StopAnswer
    const charges: nat -> Option<nat>
    const events: nat -> seq<Interference>
    var tick: nat
    var instances: map<string, Instance>
    var generations: map<string, nat>
    var exited: set<(string, nat)>
    var stopRequests: set<string>
    var halting: set<string>
    var locked: set<string>
    var watched: set<(string, nat)>
    var foreground: seq<string>

    // History: what other tasks did, the process of each consumer when it was last made ready, and the moment when the
    // fence was last looked at.
    ghost var counts: Counts
    ghost var up: map<string, Instance>
    ghost var looked: Scene

    ghost predicate Valid()
      reads this, roles, roles.registry, fence
    {
      && roles.Valid() && fence.Valid() && DISPLAY in roles.registry.roles
      && Setup(roles.registry.roles[DISPLAY], fence.visual, order)
      && Numbered(instances, generations) && Dated(exited, generations)
      && locked !! fence.visual && (forall w :: w in watched ==> w.0 !in fence.visual)
      && Aligned(roles.registry.roles[DISPLAY], Preferred(), Override(roles.overrides, DISPLAY))
    }

    ghost function Preferred(): Option<string>
      reads roles.registry
      requires DISPLAY in roles.registry.roles
    {
      roles.registry.PreferredProvider(DISPLAY)
    }

    ghost function Leases(): seq<Lease>
      reads roles.registry
      requires roles.registry.Valid() && DISPLAY in roles.registry.roles
    {
      roles.registry.ActiveLeases(DISPLAY)
    }

    predicate Owns(key: string)
      reads roles.registry
      requires roles.registry.Valid() && DISPLAY in roles.registry.roles
    {
      roles.registry.ActiveProvider(DISPLAY) == Some(key)
    }

    /** Does this process show the display? */
    predicate Shows(key: string, generation: nat)
      reads this, roles, roles.registry
      requires roles.Valid() && DISPLAY in roles.registry.roles
    {
      Owns(key) && key in instances && instances[key].generation == generation
    }

    predicate Ready(key: string)
      reads this
    {
      IsUp(instances, key)
    }

    /** Is its process there, and has it not exited? */
    predicate Alive(key: string)
      reads this
    {
      key in instances && instances[key].stage != Over && !Exited(instances, exited, key)
    }

    /** Has its process exited without anybody having noticed? */
    predicate Unseen(key: string)
      reads this
    {
      key in instances && instances[key].stage != Over && Exited(instances, exited, key)
    }

    /** Does the component hold another role? */
    predicate Outside(provider: string)
      reads roles.registry
      requires roles.registry.Valid()
    {
      exists r :: r in roles.registry.roles && r != DISPLAY && provider in roles.registry.ActiveProviders(r)
    }

    ghost function Elsewhere(): (keys: set<string>)
      reads roles.registry
      requires roles.registry.Valid()
      ensures forall p :: p in keys <==> Outside(p)
    {
      set r, p | r in roles.registry.roles && r != DISPLAY && p in roles.registry.ActiveProviders(r) :: p
    }

    ghost function Look(): Scene
      reads this, roles, roles.registry, fence
      requires roles.Valid() && DISPLAY in roles.registry.roles
    {
      Scene(fence.outage, fence.nextId, fence.losses, fence.admissions, fence.quarantined, fence.condemned, Leases(),
            Elsewhere(), instances, generations, exited, stopRequests, locked, watched, counts, tick)
    }

    constructor (roles: Switcher, fence: Fence, automatic: set<string>, order: set<string> -> seq<string>,
                 starts: nat -> StartAnswer, stops: nat -> StopAnswer, charges: nat -> Option<nat>,
                 events: nat -> seq<Interference>)
      requires roles.Valid() && fence.Valid() && DISPLAY in roles.registry.roles
      requires Setup(roles.registry.roles[DISPLAY], fence.visual, order)
      requires Aligned(roles.registry.roles[DISPLAY], roles.registry.PreferredProvider(DISPLAY),
                       Override(roles.overrides, DISPLAY))
      ensures Valid() && this.roles == roles && this.fence == fence && instances == map[]
    {
      this.roles, this.fence, this.automatic, this.order := roles, fence, automatic, order;
      this.starts, this.stops, this.charges, this.events := starts, stops, charges, events;
      tick, instances, generations, exited, foreground := 0, map[], map[], {}, [];
      stopRequests, halting, locked, watched := {}, {}, {}, {};
      counts, up := Counts(0, 0, 0, 0, 0), map[];
      looked := Scene(None, 0, 0, [], {}, {}, [], {}, map[], map[], {}, {}, {}, {}, Counts(0, 0, 0, 0, 0), 0);
    }

    // ---- Streams ----

    /** Everything that is started comes up, everything that is stopped goes down, and the file can be written. */
    ghost predicate Cooperative() {
      && (forall t :: starts(t).Comes?) && (forall t :: stops(t).Stopped?) && (forall t :: roles.writable(t))
    }

    lemma Willing(t: nat)
      ensures Cooperative() ==> starts(t).Comes? && stops(t).Stopped? && roles.writable(t)
    {
    }

    /** No other task does anything in that time. */
    ghost predicate Calm(from: nat, to: nat) {
      forall t :: from <= t < to ==> events(t) == []
    }

    /** In that time other tasks at most stop the given component. */
    ghost predicate OnlyStops(key: Option<string>, from: nat, to: nat) {
      forall t :: from <= t < to ==> StopsOnly(events(t), |events(t)|, key)
    }

    /** Time has gone on, and what other tasks did is in the stream. */
    ghost predicate Told(a: Scene, b: Scene) {
      Runs(a, b) && (Calm(a.tick, b.tick) ==> Peaceful(a, b))
    }

    /** A task has handled the given components. If they have nothing to do with the display, stops of whoever shows it
        are nothing else. */
    ghost predicate Goes(keys: set<string>, preferred: Option<string>, a: Scene, b: Scene) {
      Passes(keys, preferred, a, b) && Told(a, b) && Spared(keys, preferred, a, b)
    }

    ghost predicate Spared(keys: set<string>, preferred: Option<string>, a: Scene, b: Scene) {
      Strangers(keys, preferred, a) && OnlyStops(ShowerOf(a), a.tick, b.tick) ==> b.counts.stirs == a.counts.stirs
    }

    lemma SparedThen(keys: set<string>, preferred: Option<string>, a: Scene, b: Scene, c: Scene)
      requires Goes(keys, preferred, a, b) && Spared(keys, preferred, b, c) && Runs(b, c)
      ensures Spared(keys, preferred, a, c)
    {
      hide Flows, Stands, Lent, Held, Calm, OnlyStops;
      if Strangers(keys, preferred, a) && OnlyStops(ShowerOf(a), a.tick, c.tick) {
        OnlyStopsWithin(ShowerOf(a), a.tick, b.tick, c.tick);
        StrangersThen(keys, preferred, a, b);
        StrangersSee(keys, preferred, a, b);
      }
    }

    lemma ToldThen(a: Scene, b: Scene, c: Scene)
      requires Told(a, b) && Told(b, c)
      ensures Told(a, c)
    {
    }

    lemma OnlyStopsWithin(key: Option<string>, from: nat, mid: nat, to: nat)
      requires OnlyStops(key, from, to) && from <= mid <= to
      ensures OnlyStops(key, from, mid) && OnlyStops(key, mid, to)
    {
    }

    lemma GoesThen(keys: set<string>, preferred: Option<string>, a: Scene, b: Scene, c: Scene)
      requires Goes(keys, preferred, a, b) && Goes(keys, preferred, b, c)
      ensures Goes(keys, preferred, a, c)
    {
      hide Passes, Calm, Spared;
      ToldThen(a, b, c);
      PassesThen(keys, preferred, a, b, c);
      SparedThen(keys, preferred, a, b, c);
    }

    lemma GoesFor(few: set<string>, many: set<string>, preferred: Option<string>, a: Scene, b: Scene)
      requires Goes(few, preferred, a, b) && few <= many
      ensures Goes(many, preferred, a, b)
    {
      hide Passes, OnlyStops, Calm;
      Widen(few, many, preferred, a, b);
    }

    /** A task that handles many components goes on with a few of them. */
    lemma GoesOn(few: set<string>, many: set<string>, preferred: Option<string>, a: Scene, b: Scene, c: Scene)
      requires Goes(many, preferred, a, b) && Goes(few, preferred, b, c) && few <= many
      ensures Goes(many, preferred, a, c)
    {
      hide Goes;
      GoesFor(few, many, preferred, b, c);
      GoesThen(many, preferred, a, b, c);
    }

    // ---- The role ----

    lemma NobodyActive()
      requires roles.Valid() && DISPLAY in roles.registry.roles
      ensures roles.registry.ActiveProvider(DISPLAY) == None <==> Leases() == []
      ensures Leases() != [] ==> roles.registry.ActiveProvider(DISPLAY) == Some(Leases()[0].provider)
    {
    }

    lemma OwnerHolds(key: string)
      requires roles.Valid() && DISPLAY in roles.registry.roles
      ensures Owns(key) ==> key in Providers(Leases())
    {
      NobodyActive();
      if Leases() != [] {
        assert Providers(Leases())[0] == Leases()[0].provider;
      }
    }

    /** Holders of the role, and who is preferred for it, are no consumers of the session. */
    lemma NoConsumers()
      requires Valid()
      ensures Strangers(fence.visual, Preferred(), Look())
      ensures forall key :: Owns(key) ==> key !in fence.visual
    {
      hide LeaseInv, Rightly, Captured, WellFiled, Aligned, Numbered;
      NobodyActive();
      roles.registry.ActiveFacts(DISPLAY);
      var leases := Leases();
      forall k | 0 <= k < |leases| ensures Providers(leases)[k] !in fence.visual {
        assert leases[k] in leases;
      }
      if Preferred().Some? {
        roles.registry.PreferredIsCandidate(DISPLAY);
      }
    }

    /** A ready component takes the display role if it is preferred and nobody holds it. */
    method LeasePreferred(key: string)
      requires Valid() && Ready(key)
      modifies roles.registry`leases, roles.registry`roleLeases, roles.registry`nextToken
      ensures Valid() && Elsewhere() == old(Elsewhere())
      ensures if old(Leases()) == [] && Preferred() == Some(key)
        then |Leases()| == 1 && Grants(Leases()) == [Grant(key, Holder(instances[key].generation))]
        else Leases() == old(Leases())
    {
      hide LeaseInv, IsCandidateOf, Setup, Numbered, Dated, Rightly, Captured, WellFiled;
      if roles.registry.PreferredProvider(DISPLAY) == Some(key) && roles.registry.ActiveProvider(DISPLAY) == None {
        NobodyActive();
        roles.registry.PreferredIsCandidate(DISPLAY);
        var _ := roles.registry.Acquire(DISPLAY, Some(key), Holder(instances[key].generation));
      }
    }

    /** A component gives back all its roles. */
    method GiveUp(key: string)
      requires Valid()
      modifies roles.registry`leases, roles.registry`roleLeases
      ensures Valid() && Leases() == Others(old(Leases()), key) && Elsewhere() <= old(Elsewhere())
    {
      hide LeaseInv, IsCandidateOf, Setup, Numbered, Dated, Others, Rightly, Captured, WellFiled, Aligned;
      ghost var before := map r | r in roles.registry.roles :: roles.registry.ActiveLeases(r);
      var _ := roles.registry.ReleaseProvider(key);
      forall p | p in Elsewhere() ensures p in old(Elsewhere()) {
        var r :| r in roles.registry.roles && r != DISPLAY && p in roles.registry.ActiveProviders(r);
        FewerProviders(before[r], key, p);
      }
    }

    /** Gives the display role to a provider: preference first, then the lease. */
    method GiveRole(provider: string, mode: Mode, generation: nat) returns (ok: bool)
      requires Valid() && IsCandidateOf(roles.registry.roles[DISPLAY], provider)
      modifies roles`overrides, roles.registry
      ensures Valid() && Elsewhere() == old(Elsewhere())
      ensures ok <==> Applicable(roles.registry.roles[DISPLAY], provider, mode)
      ensures ok ==> |Leases()| == 1 && Grants(Leases()) == [Grant(provider, Holder(generation))]
      ensures ok ==> Leases()[0].provider == provider && Preferred() == Some(provider)
      ensures roles.overrides ==
        if ok then Overridden(old(roles.overrides), ChosenBy(provider, mode)) else old(roles.overrides)
      ensures !ok ==> Leases() == old(Leases()) && Preferred() == old(Preferred())
    {
      hide LeaseInv, IsCandidateOf, Setup, Numbered, Dated, Rightly, Captured, WellFiled;
      ok := roles.ApplyPreference(DISPLAY, provider, mode);
      OverriddenWhole(old(roles.overrides), roles.overrides);
      if ok {
        roles.registry.ReleaseRole(DISPLAY);
        var _ := roles.registry.Acquire(DISPLAY, Some(provider), Holder(generation));
      }
    }

    method RestorePreference(override: Option<string>)
      requires Valid() && (override.Some? ==> IsCandidateOf(roles.registry.roles[DISPLAY], override.value))
      modifies roles`overrides, roles.registry`preferred
      ensures Valid() && roles.overrides == Overridden(old(roles.overrides), override)
    {
      hide LeaseInv, IsCandidateOf, Setup, Numbered, Dated, Rightly, Captured, WellFiled;
      if override.Some? {
        var _ := roles.registry.SelectPreferred(DISPLAY, override.value);
        roles.overrides := roles.overrides[DISPLAY := override.value];
      } else {
        var _ := roles.registry.ResetPreferred(DISPLAY);
        roles.overrides := roles.overrides - {DISPLAY};
      }
    }

    /** Puts the display role back: override, preference and leases, and then the file. */
    method RestoreRole(former: seq<Lease>, override: Option<string>) returns (ok: bool)
      requires Valid() && Restorable(roles.registry.roles[DISPLAY], former, override)
      modifies roles`overrides, roles`tick, roles`disk, roles.registry
      ensures Valid() && Providers(Leases()) == Providers(former) && Elsewhere() == old(Elsewhere())
      ensures HeldFor(former, Grants(Leases()), instances)
      ensures roles.overrides == Overridden(old(roles.overrides), override)
      ensures ok ==> roles.disk == roles.overrides
      ensures ok == roles.writable(old(roles.tick))
    {
      hide LeaseInv, IsCandidateOf, Setup, Numbered, Dated, Rightly, Captured, WellFiled, Aligned;
      RestorePreference(override);
      var leases := Refreshed(former, instances);
      StillRestorable(roles.registry.roles[DISPLAY], former, override, leases);
      roles.Restore(DISPLAY, leases);
      GrantsGiveProviders(roles.registry.ActiveLeases(DISPLAY), leases);
      RefreshedHeld(former, Leases(), instances);
      ok := roles.Persist();
    }

    // ---- Losing the display ----

    /** Who runs on the session, but for one component and those being stopped. */
    function OnSession(key: string): set<string>
      reads this, fence
    {
      set k | k in instances && k in fence.visual && k != key && k !in stopRequests
    }

    /** The provider that shows the display fails: its consumers are fenced off. System services are to come back,
        applications are not. */
    method LoseDisplay(provider: string, now: nat)
      requires Valid()
      modifies fence
      ensures Valid() && OneMoreLoss(old(Look()), Look())
      ensures old(fence.outage).None? ==> fence.outage.value.servicesOnly
      ensures fence.admissions == old(fence.admissions) && fence.condemned == old(fence.condemned)
      ensures fence.quarantined <= old(fence.quarantined)
      ensures forall k :: k in OnSession(provider) ==>
        if k in automatic then k in fence.outage.value.consumers else k in fence.outage.value.dropped
      ensures old(fence.outage).None? ==> forall k :: k in fence.outage.value.consumers ==> k in automatic
    {
      hide LeaseInv, IsCandidateOf, Setup, Numbered, Dated, Rightly, Captured, Continues, KeepsFile, WellFiled, Aligned;
      var running := OnSession(provider);
      var services := set k | k in running && k in automatic;
      OrderKeeps(roles.registry.roles[DISPLAY], fence.visual, order, services);
      OrderKeeps(roles.registry.roles[DISPLAY], fence.visual, order, running - services);
      var cutoff := if now >= GRACE_MS then now - GRACE_MS else 0;
      fence.BeginOutage(provider, order(services), order(running - services), true, foreground, Some(cutoff));
    }

    /** The display is to be taken down on purpose: everybody on it is to come back. */
    method TakeDown(provider: string)
      requires Valid()
      modifies fence
      ensures Valid() && OneMoreLoss(old(Look()), Look())
      ensures fence.admissions == old(fence.admissions) && fence.condemned == old(fence.condemned)
      ensures fence.quarantined == old(fence.quarantined)
      ensures forall k :: k in OnSession(provider) ==> k in fence.outage.value.consumers
    {
      hide LeaseInv, IsCandidateOf, Setup, Numbered, Dated, Rightly, Captured, Continues, KeepsFile, WellFiled, Aligned;
      OrderKeeps(roles.registry.roles[DISPLAY], fence.visual, order, OnSession(provider));
      fence.BeginOutage(provider, order(OnSession(provider)), [], false, foreground, None);
    }

    // ---- What other tasks do ----

    /** A process is at the given stage now, and its component holds nothing any more. */
    method Unseat(key: string, stage: Stage, exits: bool)
      requires Valid() && key in instances
      modifies `instances, `exited, roles.registry`leases, roles.registry`roleLeases
      ensures Valid() && instances == old(instances)[key := old(instances)[key].(stage := stage)]
      ensures exited == if exits then old(exited) + {(key, old(instances)[key].generation)} else old(exited)
      ensures Leases() == Others(old(Leases()), key) && Elsewhere() <= old(Elsewhere())
      ensures Look() == old(Look()).(instances := instances, exited := exited, leases := Leases(),
                                     elsewhere := Elsewhere())
    {
      hide LeaseInv, IsCandidateOf, Setup, Others, Rightly, Captured, WellFiled, Aligned;
      var was := instances[key];
      exited := if exits then exited + {(key, was.generation)} else exited;
      KeepsNumber(instances, generations, key, was.(stage := stage));
      instances := instances[key := was.(stage := stage)];
      GiveUp(key);
    }

    /** The display is lost, and whoever saw that waits for this task. */
    method Announce(key: string, seer: Seer, now: nat)
      requires Valid() && key in instances && Owns(key)
      modifies `locked, `watched, `counts, fence
      ensures Valid() && OneMoreLoss(old(Look()), Look()) && fence.quarantined <= old(fence.quarantined)
      ensures Look() == old(Look()).(outage := fence.outage, nextId := fence.nextId, losses := fence.losses,
                                     quarantined := fence.quarantined, locked := locked, watched := watched,
                                     counts := counts)
      ensures counts == old(counts).(stirs := old(counts).stirs + 1)
      ensures locked == if seer.Starter? then old(locked) + {key} else old(locked)
      ensures watched == if seer.Watcher? then old(watched) + {(key, instances[key].generation)} else old(watched)
    {
      hide LeaseInv, IsCandidateOf, Setup, Others, Rightly, Captured, Continues, WellFiled, Aligned, KeepsFile,
           Numbered, Dated;
      NoConsumers();
      LoseDisplay(key, now);
      counts := counts.(stirs := counts.stirs + 1);
      locked := if seer.Starter? then locked + {key} else locked;
      watched := if seer.Watcher? then watched + {(key, instances[key].generation)} else watched;
    }

    /** The process that shows the display fails. */
    method FailOwner(key: string, seer: Seer, now: nat)
      requires Valid() && key in instances && Owns(key)
      requires instances[key].stage != Over && (seer.Channel? ==> instances[key].stage != Cut)
      modifies `instances, `exited, `locked, `watched, `counts, roles.registry`leases, roles.registry`roleLeases, fence
      ensures Valid() && Passes({}, Preferred(), old(Look()), Look()) && fence.losses == old(fence.losses) + 1
      ensures instances == old(instances)[key := old(instances)[key].(stage := StageSeen(seer))]
      ensures counts == old(counts).(stirs := old(counts).stirs + 1)
      ensures locked == if seer.Starter? then old(locked) + {key} else old(locked)
      ensures Leases() == Others(old(Leases()), key) && fence.quarantined <= old(fence.quarantined)
      ensures exited == if seer.Channel? then old(exited) else old(exited) + {(key, old(instances)[key].generation)}
      ensures old(watched) <= watched && forall w :: w in watched && w !in old(watched) ==> w.0 == key
      ensures Failed(key, seer, old(Look()), Look())
    {
      hide LeaseInv, IsCandidateOf, Setup, Others, Rightly, Captured, Continues, WellFiled, Aligned, Passes, KeepsFile,
           OneMoreLoss, Numbered, Dated, Fence.Valid, RoleRegistry.Valid;
      ghost var a := Look();
      NobodyActive();
      Announce(key, seer, now);
      ghost var b := Look();
      Unseat(key, StageSeen(seer), !seer.Channel?);
      LossSeen(a, b, Look());
      OwnerFails(Preferred(), a, Look(), key, StageSeen(seer));
    }

    /** Another process fails. */
    method FailOther(key: string, seer: Seer)
      requires Valid() && key in instances && !Owns(key)
      requires instances[key].stage != Over && (seer.Channel? ==> instances[key].stage != Cut)
      modifies `instances, `exited, `counts, roles.registry`leases, roles.registry`roleLeases
      ensures Valid() && Passes({}, Preferred(), old(Look()), Look())
      ensures instances == old(instances)[key := old(instances)[key].(stage := StageSeen(seer))]
      ensures counts == old(counts).(stirs := old(counts).stirs + 1)
      ensures Leases() == Others(old(Leases()), key)
      ensures exited == if seer.Channel? then old(exited) else old(exited) + {(key, old(instances)[key].generation)}
      ensures Failed(key, seer, old(Look()), Look())
    {
      hide LeaseInv, IsCandidateOf, Setup, Others, Rightly, Captured, WellFiled, Aligned, Passes, Numbered, Dated;
      ghost var a := Look();
      NobodyActive();
      counts := counts.(stirs := counts.stirs + 1);
      Unseat(key, StageSeen(seer), !seer.Channel?);
      OtherFails(Preferred(), a, Look(), key, StageSeen(seer));
    }

    /** A process fails, and the failure may be held against its component. */
    method FailAndCount(key: string, seer: Seer, now: nat, counted: bool)
      requires Valid() && key in instances
      requires instances[key].stage != Over && (seer.Channel? ==> instances[key].stage != Cut)
      modifies `instances, `exited, `locked, `watched, `counts, roles.registry`leases, roles.registry`roleLeases, fence
      ensures Valid() && Passes({}, Preferred(), old(Look()), Look())
      ensures counts == old(counts).(stirs := old(counts).stirs + 1)
      ensures Failed(key, seer, old(Look()), Look())
    {
      hide LeaseInv, IsCandidateOf, Setup, Others, Rightly, Captured, WellFiled, Aligned, Passes, Numbered, Dated,
           Failed;
      ghost var a := Look();
      if Owns(key) {
        FailOwner(key, seer, now);
      } else {
        FailOther(key, seer);
      }
      ghost var b := Look();
      if seer != Channel && counted {
        var _ := fence.RecordFailure(key, now);
      }
      Stirred({}, Preferred(), a, b, Look());
      FailedMore(key, seer, a, b, Look());
    }

    /** Something happens that does not show. */
    method Stir()
      requires Valid()
      modifies `counts
      ensures Valid() && Passes({}, Preferred(), old(Look()), Look())
      ensures counts == old(counts).(stirs := old(counts).stirs + 1)
    {
      hide LeaseInv, IsCandidateOf, Setup, Rightly, Captured, WellFiled, Aligned, Passes;
      ghost var a := Look();
      counts := counts.(stirs := counts.stirs + 1);
      Stirs(Preferred(), a, Look());
    }

    /** A process exits, and nobody has seen it yet. */
    method Die(key: string)
      requires Valid()
      modifies `exited, `counts
      ensures Valid() && Passes({}, Preferred(), old(Look()), Look())
      ensures counts == old(counts).(stirs := old(counts).stirs + 1)
      ensures key in instances ==> exited == old(exited) + {(key, instances[key].generation)}
    {
      hide LeaseInv, IsCandidateOf, Setup, Rightly, Captured, WellFiled, Aligned, Passes;
      ghost var a := Look();
      Stir();
      ghost var b := Look();
      if key in instances {
        exited := exited + {(key, instances[key].generation)};
      }
      Stirred({}, Preferred(), a, b, Look());
    }

    /** A new process of a component. */
    method NewProcess(key: string, stage: Stage)
      requires Valid()
      modifies `instances, `generations, fence`backoff
      ensures Valid() && Apart({key}, old(instances), instances) && Grown(old(generations), generations)
      ensures key in instances && instances[key].stage == stage && !Exited(instances, exited, key)
      ensures Newer(key, instances[key].generation, old(generations))
    {
      hide LeaseInv, IsCandidateOf, Setup, Rightly, Captured, WellFiled, Aligned;
      var generation := if key in generations then generations[key] + 1 else 1;
      NextNumber(instances, generations, exited, key, stage);
      generations := generations[key := generation];
      instances := instances[key := Instance(generation, stage)];
      fence.Spawned(key);
    }

    /** A process comes up: the one that was coming up, or a new one. */
    method ComeUp(key: string)
      requires Valid() && (Alive(key) ==> instances[key].stage != Cut) && !Unseen(key)
      modifies `instances, `generations, fence`backoff
      ensures Valid() && Apart({key}, old(instances), instances) && Grown(old(generations), generations)
      ensures old(Ready(key)) ==> instances == old(instances)
      ensures Ready(key) && Alive(key) && Follows(key, old(instances), old(generations), instances[key])
    {
      hide LeaseInv, IsCandidateOf, Setup, Rightly, Captured, WellFiled, Aligned, Dated;
      if Ready(key) {
        return;
      }
      if key in instances && instances[key].stage == Starting {
        instances := instances[key := instances[key].(stage := Up)];
      } else {
        NewProcess(key, Up);
      }
    }

    /** A process comes up, or somebody asks for one that is up. A start that is under way does not notice that an
        outage begins. */
    method Arrive(key: string)
      requires Valid()
      modifies `instances, `generations, `counts, roles.registry`leases, roles.registry`roleLeases,
               roles.registry`nextToken, fence`backoff
      ensures Valid() && Passes({}, Preferred(), old(Look()), Look())
      ensures counts == old(counts).(stirs := old(counts).stirs + 1)
    {
      hide LeaseInv, IsCandidateOf, Setup, Rightly, Captured, WellFiled, Aligned, Passes, Follows, Apart, Grown,
           Numbered, Dated;
      ghost var a := Look();
      counts := counts.(stirs := counts.stirs + 1);
      var anew := (key !in instances || instances[key].stage == Over) && key !in stopRequests &&
        key !in fence.quarantined;
      if anew || (Alive(key) && instances[key].stage != Cut) {
        ComeUp(key);
        LeasePreferred(key);
        if Leases() != old(Leases()) {
          assert Grants(Leases())[0].provider == key;
        }
        OneComes(Preferred(), a, Look(), key);
        Stirred({key}, Preferred(), a, Look(), Look());
      } else {
        Stirs(Preferred(), a, Look());
      }
    }

    /** Is the component one that a call to a role would use? */
    predicate Usable(key: string)
      reads this, fence
    {
      Ready(key) && Alive(key) && key !in stopRequests && key !in fence.quarantined
    }

    /** A call to the display role finds a candidate usable: it takes the role, unless it may not. */
    method Ask(key: string)
      requires Valid()
      modifies `counts, roles.registry`leases, roles.registry`roleLeases, roles.registry`nextToken
      ensures Valid() && Passes({}, Preferred(), old(Look()), Look())
      ensures counts.stirs == old(counts).stirs + 1 &&
        counts == old(counts).(stirs := counts.stirs, calls := counts.calls)
    {
      hide LeaseInv, IsCandidateOf, Setup, Rightly, Captured, WellFiled, Aligned, Passes, Numbered, Dated;
      ghost var a := Look();
      if Usable(key) && !Owns(key) {
        counts := counts.(stirs := counts.stirs + 1, calls := counts.calls + 1);
        var _ := roles.registry.Acquire(DISPLAY, Some(key), Holder(instances[key].generation));
        RoleCalled(Preferred(), a, Look(), key);
      } else {
        Stir();
      }
    }

    /** A call to the display role finds a component not usable: whatever it holds is taken from it. */
    method Drop(key: string)
      requires Valid()
      modifies `counts, roles.registry`leases, roles.registry`roleLeases
      ensures Valid() && Passes({}, Preferred(), old(Look()), Look())
      ensures counts.stirs == old(counts).stirs + 1 &&
        counts == old(counts).(stirs := counts.stirs, calls := counts.calls)
    {
      hide LeaseInv, IsCandidateOf, Setup, Others, Rightly, Captured, WellFiled, Aligned, Passes, Numbered, Dated;
      ghost var a := Look();
      if !Usable(key) {
        counts := counts.(stirs := counts.stirs + 1, calls := counts.calls + 1);
        GiveUp(key);
        OthersFacts(a.leases, key);
        RoleCalled(Preferred(), a, Look(), key);
      } else {
        Stir();
      }
    }

    /** Somebody stops a component. If it shows the display, it is to be taken down, and the stop waits for this task;
        otherwise the stop is under way. */
    method StopAsked(key: string)
      requires Valid()
      modifies `stopRequests, `halting, `counts, fence
      ensures Valid() && Passes({}, Preferred(), old(Look()), Look()) && ShowerOf(Look()) == ShowerOf(old(Look()))
      ensures ShowerOf(old(Look())) == Some(key) ==>
        OnlyTaken(old(Look()), Look(), 1) && stopRequests == old(stopRequests) + {key}
      ensures ShowerOf(old(Look())) != Some(key) ==> counts == old(counts).(stirs := old(counts).stirs + 1)
    {
      hide LeaseInv, IsCandidateOf, Setup, Rightly, Captured, WellFiled, Aligned, Passes, Numbered, Dated, OneMoreLoss;
      ghost var a := Look();
      NobodyActive();
      if Owns(key) && key in instances {
        TakeDown(key);
        ghost var b := Look();
        counts := counts.(taken := counts.taken + 1);
        stopRequests := stopRequests + {key};
        LossSeen(a, b, Look());
        OwnerStopped(Preferred(), a, Look());
      } else {
        Stir();
        ghost var b := Look();
        stopRequests, halting := stopRequests + {key}, halting + {key};
        Stirred({}, Preferred(), a, b, Look());
      }
    }

    /** A stop that was under way gets to the component: its process is removed, whatever it holds by then. */
    method Halt(key: string)
      requires Valid()
      modifies `instances, `stopRequests, `halting, `counts, roles.registry`leases, roles.registry`roleLeases
      ensures Valid() && Passes({}, Preferred(), old(Look()), Look())
      ensures counts.stirs == old(counts).stirs + 1
      ensures counts == old(counts).(stirs := counts.stirs, pulled := counts.pulled)
    {
      hide LeaseInv, IsCandidateOf, Setup, Others, Rightly, Captured, WellFiled, Aligned, Passes, Dated, Fence.Valid,
           RoleRegistry.Valid;
      ghost var a := Look();
      NobodyActive();
      if key in halting && key in instances {
        counts := counts.(stirs := counts.stirs + 1, pulled := if Owns(key) then counts.pulled + 1 else counts.pulled);
        instances := instances - {key};
        GiveUp(key);
        OneStops(Preferred(), a, Look(), key);
      } else {
        Stir();
        Widen({}, {key}, Preferred(), a, Look());
      }
      ghost var b := Look();
      if key in halting {
        stopRequests, halting := stopRequests - {key}, halting - {key};
      }
      Stirred({key}, Preferred(), a, b, Look());
    }

    method Happen(e: Interference)
      requires Valid()
      modifies `instances, `generations, `exited, `stopRequests, `halting, `locked, `watched, `counts,
               roles.registry`leases, roles.registry`roleLeases, roles.registry`nextToken, fence
      ensures Valid() && Passes({}, Preferred(), old(Look()), Look()) && tick == old(tick)
      ensures Stepped(e, old(Look()), Look()) && counts.opens == old(counts).opens
    {
      hide LeaseInv, IsCandidateOf, Setup, Others, Rightly, Captured, WellFiled, Aligned, Passes, Numbered, Dated,
           Failed, Fence.Valid, RoleRegistry.Valid;
      match e {
        case Fails(key, seer, now, counted) =>
          if key in instances && instances[key].stage != Over && (seer.Channel? ==> instances[key].stage != Cut) {
            FailAndCount(key, seer, now, counted);
          } else {
            Stir();
          }
        case Dies(key) => Die(key);
        case Arrives(key) => Arrive(key);
        case Asks(key) => Ask(key);
        case Drops(key) => Drop(key);
        case Stops(key) => StopAsked(key);
        case Halts(key) => Halt(key);
      }
    }

    /** A task waits: whatever other tasks do, they do now. */
    method Interfere() returns (ghost path: seq<Scene>)
      requires Valid()
      modifies `tick, `instances, `generations, `exited, `stopRequests, `halting, `locked, `watched, `counts,
               roles.registry`leases, roles.registry`roleLeases, roles.registry`nextToken, fence
      ensures Valid() && Goes({}, Preferred(), old(Look()), Look()) && tick == old(tick) + 1
      ensures var es := events(old(tick)); Heard(es, |es|, path, old(Look()).(tick := tick), Look())
      ensures events(old(tick)) == [] ==>
        Look() == old(Look()).(tick := tick) && fence.Budgets() == old(fence.Budgets())
      ensures Peaceful(old(Look()), Look()) ==> events(old(tick)) == []
      ensures counts.opens == old(counts).opens
    {
      hide LeaseInv, IsCandidateOf, Setup, Rightly, Captured, WellFiled, Aligned, Passes, Runs, Numbered, Dated, Heard,
           Stepped, Goes;
      ghost var a := Look();
      var es := events(tick);
      tick := tick + 1;
      ghost var b := Look();
      Ticks({}, Preferred(), a, tick);
      path := [b];
      HeardNothing(es, b);
      for k := 0 to |es|
        invariant Valid() && Passes({}, Preferred(), a, Look()) && tick == b.tick
        invariant Heard(es, k, path, b, Look()) && counts.opens == old(counts).opens
        invariant k == 0 ==> fence.Budgets() == old(fence.Budgets())
      {
        ghost var c := Look();
        Happen(es[k]);
        PassesThen({}, Preferred(), a, c, Look());
        HeardMore(es, k, path, b, c, Look());
        path := path + [Look()];
      }
      HeardOut(es, Preferred(), path, a, b, Look());
    }

    lemma HeardOut(es: seq<Interference>, preferred: Option<string>, path: seq<Scene>, a: Scene, b: Scene, c: Scene)
      requires Passes({}, preferred, a, c) && b == a.(tick := c.tick) && c.tick == a.tick + 1
      requires es == events(a.tick) && Heard(es, |es|, path, b, c)
      ensures Goes({}, preferred, a, c) && (es == [] ==> c == b) && (Peaceful(a, c) ==> es == [])
    {
      hide Flows, Still, Seats, Did;
      PassesParts({}, preferred, a, c);
      if Calm(a.tick, c.tick) {
        assert es == [];
      }
      if OnlyStops(ShowerOf(a), a.tick, c.tick) {
        assert StopsOnly(es, |es|, ShowerOf(b));
      }
    }

    // ---- Starting ----

    /** Somebody who starts a component sees that its process has exited. If it showed the display, the display is lost,
        and the task waits for a lock that it holds itself: that never ends. */
    method SeeExit(key: string) returns (stuck: bool)
      requires Valid() && Unseen(key)
      modifies `tick, `instances, `exited, roles.registry`leases, roles.registry`roleLeases, fence
      ensures Valid() && stuck == old(Owns(key)) && exited == old(exited) && tick >= old(tick) && counts == old(counts)
      ensures stuck ==> Flows(old(Look()), Look()) && fence.losses == old(fence.losses) + 1
      ensures !stuck ==> Passes({key}, Preferred(), old(Look()), Look()) && !Ready(key)
      ensures !stuck ==> fence.outage == old(fence.outage)
      ensures !stuck ==> key in instances && instances[key].stage == Over
      ensures !stuck ==> old(fence.quarantined) <= fence.quarantined <= old(fence.quarantined) + {key}
      ensures key !in Providers(old(Leases())) ==> Leases() == old(Leases())
    {
      hide LeaseInv, IsCandidateOf, Setup, Others, Rightly, Captured, WellFiled, Aligned, Passes, Flows, Numbered,
           Dated, OneMoreLoss;
      ghost var a := Look();
      NobodyActive();
      stuck := Owns(key);
      if stuck {
        LoseDisplay(key, 0);
        ghost var b := Look();
        Unseat(key, Over, false);
        LossSeen(a, b, Look());
        LosesSeeing(a, Look(), key);
      } else {
        Unseat(key, Over, false);
        ghost var b := Look();
        var charge := charges(tick);
        tick := tick + 1;
        if charge.Some? {
          var _ := fence.RecordFailure(key, charge.value);
        }
        OneSeen(Preferred(), a, Look(), key);
      }
      if key !in Providers(a.leases) {
        OthersAll(a.leases, key);
      }
    }

    /** Spawns a process, unless one is there: it is coming up then, or could not be spawned. */
    method Spawn(key: string) returns (spawned: bool, answer: StartAnswer)
      requires Valid() && !Unseen(key)
      modifies `tick, `instances, `generations, fence
      ensures Valid() && Passes({key}, Preferred(), old(Look()), Look()) && Leases() == old(Leases())
      ensures tick > old(tick) && counts == old(counts) && fence.outage == old(fence.outage)
      ensures answer == starts(old(tick)) && (spawned <==> old(Alive(key)) || answer.Comes? || answer.spawned)
      ensures spawned ==> fence.quarantined == old(fence.quarantined)
      ensures if old(Alive(key)) then instances == old(instances)
        else spawned ==> Alive(key) && instances[key].stage == Starting
      ensures !spawned && !old(fence.Blocks(key)) ==> Charged(key, answer.now)
    {
      hide LeaseInv, IsCandidateOf, Setup, Rightly, Captured, WellFiled, Aligned, Passes, Apart, Grown, Numbered, Dated;
      ghost var a := Look();
      answer := starts(tick);
      tick := tick + 1;
      spawned := true;
      if Alive(key) {
        Ticks({key}, Preferred(), a, tick);
        return;
      }
      spawned := answer.Comes? || answer.spawned;
      if spawned {
        NewProcess(key, Starting);
      } else {
        NotSpawned(key, answer.now);
      }
      OneStays(Preferred(), a, Look(), key);
    }

    /** Its next start has to wait, or it is quarantined. */
    ghost predicate Charged(key: string, now: nat)
      reads this, fence
    {
      key !in fence.quarantined ==>
        var n := |HistoryOf(fence.failureHistory, key)|;
        n >= 1 && BackoffOf(fence.backoff, key) == Some(now + RestartDelay(n))
    }

    /** The generation is spent, and the failure is counted. */
    method NotSpawned(key: string, now: nat)
      requires Valid()
      modifies `generations, fence
      ensures Valid() && Grown(old(generations), generations)
      ensures generations == old(generations)[key := if key in old(generations) then old(generations)[key] + 1 else 1]
      ensures !old(fence.Blocks(key)) ==> Charged(key, now)
      ensures fence.outage == old(fence.outage) && fence.nextId == old(fence.nextId)
      ensures fence.losses == old(fence.losses) && fence.admissions == old(fence.admissions)
      ensures old(fence.condemned) <= fence.condemned
      ensures old(fence.quarantined) <= fence.quarantined <= old(fence.quarantined) + {key}
    {
      hide LeaseInv, IsCandidateOf, Setup, Rightly, Captured, WellFiled, Aligned;
      NextNumber(instances, generations, exited, key, Starting);
      generations := generations[key := if key in generations then generations[key] + 1 else 1];
      fence.SpawnFailed(key, now);
    }

    /** The process that is awaited has come up, or has not. If it has exited and the task that watches it waits for
        this one, the wait never ends. */
    method ComesUp(key: string, answer: StartAnswer) returns (r: Option<Instance>, stuck: bool)
      requires Valid()
      modifies `instances, `generations, roles.registry`leases, roles.registry`roleLeases, roles.registry`nextToken,
               fence`backoff
      ensures Valid() && Passes({key}, Preferred(), old(Look()), Look())
      ensures counts == old(counts) && (old(Alive(key)) ==>
                                        Awaited(key, Preferred(), answer, r, stuck, old(Look()), Look()))
      ensures Gotten(key, Preferred(), r, stuck, Look()) && (stuck ==> exists w :: w in watched && w.0 == key)
      ensures r.None? ==> Leases() == old(Leases())
      ensures r.Some? <==> old(Ready(key)) ||
                           (answer.Comes? && old(Alive(key)) && old(instances)[key].stage != Cut)
      ensures stuck <==> r.None? && key in instances && (key, instances[key].generation) in watched
    {
      hide LeaseInv, IsCandidateOf, Setup, Rightly, Captured, WellFiled, Aligned, Passes, Numbered, Dated;
      ghost var a := Look();
      Idle({key});
      r, stuck := None, false;
      if answer.Comes? && Alive(key) && instances[key].stage != Cut {
        ComeUp(key);
        OneComes(Preferred(), a, Look(), key);
      }
      if Ready(key) {
        ghost var c := Look();
        TakeIfPreferred(key);
        PassesThen({key}, Preferred(), a, c, Look());
        r := Some(instances[key]);
      } else {
        stuck := key in instances && (key, instances[key].generation) in watched;
      }
    }

    /** Doing nothing is allowed. */
    lemma Idle(keys: set<string>)
      requires Valid()
      ensures Passes(keys, Preferred(), Look(), Look()) && Runs(Look(), Look())
    {
      hide LeaseInv, IsCandidateOf, Setup, Rightly, Captured, WellFiled, Aligned, Passes, Numbered, Dated;
      Nothing(keys, Preferred(), Look());
    }

    /** A component that is up takes the role if it is its to take. */
    method TakeIfPreferred(key: string)
      requires Valid() && Ready(key)
      modifies roles.registry`leases, roles.registry`roleLeases, roles.registry`nextToken
      ensures Valid() && Passes({key}, Preferred(), old(Look()), Look())
      ensures Look() == old(Look()).(leases := Leases())
      ensures Preferred() != Some(key) ==> Leases() == old(Leases())
      ensures Preferred() == Some(key) ==> Leases() != []
    {
      hide LeaseInv, IsCandidateOf, Setup, Rightly, Captured, WellFiled, Aligned, Passes;
      ghost var a := Look();
      LeasePreferred(key);
      if Leases() != old(Leases()) {
        assert Grants(Leases())[0].provider == key;
      }
      OneComes(Preferred(), a, Look(), key);
    }

    /** The exit of the last process is seen, and a new one is spawned, unless that puts an end to it. */
    method SeeAndSpawn(key: string) returns (spawned: bool, answer: StartAnswer, stuck: bool)
      requires Valid()
      modifies `tick, `instances, `generations, `exited, roles.registry`leases, roles.registry`roleLeases, fence
      ensures Valid() && Spawned(key, starts(old(tick)), spawned, answer, stuck, old(Look()), Look())
      ensures Told(old(Look()), Look())
      ensures if stuck then Culprit(Preferred(), old(Look()), Look(), key)
        else Goes({key}, Preferred(), old(Look()), Look())
    {
      hide LeaseInv, IsCandidateOf, Setup, Rightly, Captured, WellFiled, Aligned, Passes, Numbered, Dated, Culprit,
           Apart, Newer, Others, Goes, Told, Fence.Valid, RoleRegistry.Valid;
      ghost var a := Look();
      NobodyActive();
      Idle({key});
      GoesQuietly({key}, Preferred(), a, a, false);
      spawned, answer, stuck := false, starts(tick), false;
      if Unseen(key) {
        stuck := SeeExit(key);
        GoesQuietly({key}, Preferred(), a, Look(), stuck);
        if stuck {
          OwnerHolds(key);
          CulpritShows(Preferred(), a, Look(), key);
          return;
        }
        if key in fence.quarantined {
          return;
        }
      }
      ghost var b := Look();
      spawned, answer := Spawn(key);
      GoesQuietly({key}, Preferred(), b, Look(), false);
      GoesThen({key}, Preferred(), a, b, Look());
      GoesParts({key}, Preferred(), a, Look());
    }

    lemma GoesQuietly(keys: set<string>, preferred: Option<string>, a: Scene, b: Scene, stuck: bool)
      requires if stuck then Flows(a, b) else Passes(keys, preferred, a, b)
      requires Peaceful(a, b)
      ensures Told(a, b) && (!stuck ==> Goes(keys, preferred, a, b))
    {
      hide Drift, Ages, Stands, Lent, Held, Calm, OnlyStops;
    }

    lemma ToldRuns(a: Scene, b: Scene)
      requires Told(a, b)
      ensures Runs(a, b)
    {
    }

    lemma GoesParts(keys: set<string>, preferred: Option<string>, a: Scene, b: Scene)
      requires Goes(keys, preferred, a, b)
      ensures Passes(keys, preferred, a, b) && Told(a, b) && Spared(keys, preferred, a, b)
    {
      hide Passes, Told, Spared;
    }

    lemma ToldAnyway(start: Scene, a: Scene, b: Scene)
      requires Told(a, b) && start == a.(stopping := start.stopping)
      ensures Told(start, b)
    {
    }

    lemma SparedAnyway(key: string, preferred: Option<string>, start: Scene, a: Scene, b: Scene)
      requires Goes({}, preferred, a, b) && start == a.(stopping := start.stopping)
      ensures Spared({key}, preferred, start, b)
    {
      hide Passes, Calm, OnlyStops;
    }

    lemma GoesWindow(key: string, preferred: Option<string>, a: Scene, d: Scene)
      requires Goes({key}, preferred, a.(stopping := a.stopping + {key}), d)
      ensures Goes({key}, preferred, a, d.(stopping := d.stopping - {key}))
    {
      hide Passes, Calm, OnlyStops;
      StopWindow(key, preferred, a, d);
    }

    /** A process is awaited. */
    method AwaitIt(key: string, answer: StartAnswer) returns (r: Option<Instance>, stuck: bool)
      requires Valid() && Alive(key)
      modifies `tick, `instances, `generations, `exited, `stopRequests, `halting, `locked, `watched, `counts,
               roles.registry`leases, roles.registry`roleLeases, roles.registry`nextToken, fence
      ensures Valid() && Goes({key}, Preferred(), old(Look()), Look())
      ensures Awaited(key, Preferred(), answer, r, stuck, old(Look()), Look()) && (stuck ==> r.None?)
    {
      hide LeaseInv, IsCandidateOf, Setup, Rightly, Captured, WellFiled, Aligned, Passes, Numbered, Dated, Goes, Told,
           Heard, OnlyStops;
      ghost var a := Look();
      ghost var _ := Interfere();
      ghost var b := Look();
      GoesParts({}, Preferred(), a, b);
      StoodBy(Preferred(), a, b, key);
      r, stuck := ComesUp(key, answer);
      GoesFor({}, {key}, Preferred(), a, b);
      GoesQuietly({key}, Preferred(), b, Look(), false);
      GoesThen({key}, Preferred(), a, b, Look());
    }

    /** The fence has been passed: the exit of the last process is seen, a new one is spawned, and it is awaited. */
    method StartIt(key: string) returns (r: Option<Instance>, stuck: bool)
      requires Valid() && key !in fence.quarantined
      modifies `tick, `instances, `generations, `exited, `stopRequests, `halting, `locked, `watched, `counts,
               roles.registry`leases, roles.registry`roleLeases, roles.registry`nextToken, fence
      ensures Valid() && Readied(key, Preferred(), r, stuck, old(Look()), Look())
      ensures Told(old(Look()), Look())
      ensures if stuck then Culprit(Preferred(), old(Look()), Look(), key)
        else Goes({key}, Preferred(), old(Look()), Look())
      ensures Startable(old(Look()), Look(), key) && Cooperative() ==> r.Some?
      ensures stuck ==> key !in fence.visual && r.None?
    {
      hide LeaseInv, IsCandidateOf, Setup, Rightly, Captured, WellFiled, Aligned, Passes, Numbered, Dated, Runs,
           Culprit, Apart, Newer, Goes, Heard, OnlyStops, Calm, Told, Readied, Startable, Gotten, Cooperative;
      ghost var a := Look();
      ghost var _ := Interfere();
      ghost var b := Look();
      GoesParts({}, Preferred(), a, b);
      GoesFor({}, {key}, Preferred(), a, b);
      GoesParts({key}, Preferred(), a, b);
      NobodyActive();
      NoConsumers();
      r, stuck := None, false;
      if key in stopRequests {
        Refused(key, Preferred(), a, b);
        return;
      }
      var first := starts(tick);
      Willing(tick);
      var spawned, answer;
      spawned, answer, stuck := SeeAndSpawn(key);
      ghost var c := Look();
      if !spawned {
        NotStarted(key, Preferred(), first, answer, stuck, a, b, c);
      }
      if stuck {
        ToldThen(a, b, c);
        CulpritThen({key}, Preferred(), a, b, c, key);
        return;
      }
      GoesThen({key}, Preferred(), a, b, c);
      GoesParts({key}, Preferred(), a, c);
      if !spawned {
        return;
      }
      r, stuck := AwaitIt(key, answer);
      GoesParts({key}, Preferred(), b, c);
      GoesParts({key}, Preferred(), c, Look());
      ToldRuns(c, Look());
      WasStarted(key, Preferred(), first, answer, r, stuck, a, b, c, Look());
      GoesThen({key}, Preferred(), a, c, Look());
      GoesParts({key}, Preferred(), a, Look());
      if stuck {
        CulpritWatched({key}, Preferred(), a, Look(), key);
      }
    }

    /** Makes a component ready: returned at once if it is up, refused behind the fence, else started. Whoever starts
        one that was started by a task which waits for this one waits for ever. */
    method EnsureReady(key: string) returns (r: Option<Instance>, stuck: bool)
      requires Valid()
      modifies `tick, `instances, `generations, `exited, `stopRequests, `halting, `locked, `watched, `counts, `looked,
               roles.registry`leases, roles.registry`roleLeases, roles.registry`nextToken, fence
      ensures Valid() && Readied(key, Preferred(), r, stuck, old(Look()), Look())
      ensures Told(old(Look()), Look())
      ensures if stuck then Culprit(Preferred(), old(Look()), Look(), key)
        else Goes({key}, Preferred(), old(Look()), Look())
      ensures stuck ==> key !in fence.visual
      ensures Goes({}, Preferred(), old(Look()), looked) && Told(looked, Look())
      ensures Peaceful(old(Look()), looked) ==> looked == old(Look()).(tick := looked.tick)
      ensures looked.counts.opens == old(counts).opens
      ensures Welcome(old(Look()), Look(), key) && !BlockedIn(looked, fence.visual, key) && Cooperative() ==> r.Some?
      ensures key in fence.visual && !IsUp(looked.instances, key) && r.Some? ==> !BlockedIn(looked, fence.visual, key)
      ensures key in looked.quarantined || stuck ==> r.None?
      ensures key in looked.locked && key !in looked.stopping ==> stuck
    {
      hide LeaseInv, IsCandidateOf, Setup, Rightly, Captured, WellFiled, Aligned, Passes, Numbered, Dated, Runs,
           Culprit, Apart, Newer, Goes, Heard, OnlyStops, Calm, Told, Readied, Cooperative;
      ghost var a := Look();
      ghost var _ := Interfere();
      ghost var b := Look();
      looked := b;
      GoesParts({}, Preferred(), a, b);
      GoesFor({}, {key}, Preferred(), a, b);
      Idle({key});
      GoesQuietly({key}, Preferred(), b, b, false);
      NoConsumers();
      NobodyActive();
      r, stuck := None, false;
      if key in stopRequests || key in locked || key in fence.quarantined {
        stuck := key !in stopRequests && key in locked;
        AtOnce(key, Preferred(), r, stuck, a, b, b);
        if stuck {
          CulpritLocked({}, Preferred(), a, b, key);
        }
      } else if Ready(key) && Alive(key) {
        TakeIfPreferred(key);
        r := Some(instances[key]);
        AtOnce(key, Preferred(), r, stuck, a, b, Look());
        GoesQuietly({key}, Preferred(), b, Look(), false);
        GoesThen({key}, Preferred(), a, b, Look());
        GoesParts({key}, Preferred(), a, Look());
      } else if fence.Blocks(key) {
        Fenced(key, Preferred(), a, b);
      } else {
        r, stuck := StartIt(key);
        ToldRuns(b, Look());
        AfterAll(key, Preferred(), r, stuck, a, b, Look());
        ToldThen(a, b, Look());
        if stuck {
          CulpritThen({}, Preferred(), a, b, Look(), key);
        } else {
          GoesThen({key}, Preferred(), a, b, Look());
        }
      }
    }

    // ---- Stopping ----

    /** Removes a process, with its roles; the stop may raise before or after that. */
    method Remove(key: string) returns (ok: bool)
      requires Valid() && key in instances
      modifies `tick, `instances, `counts, roles.registry`leases, roles.registry`roleLeases
      ensures Valid() && Passes({key}, Preferred(), old(Look()), Look()) && Peaceful(old(Look()), Look())
      ensures (ok ==> key !in instances) && ok == stops(old(tick)).Stopped? && counts.opens == old(counts).opens
      ensures key !in Providers(old(Leases())) ==> Leases() == old(Leases())
    {
      hide LeaseInv, IsCandidateOf, Setup, Others, Rightly, Captured, WellFiled, Aligned, Passes, Dated;
      ghost var a := Look();
      NobodyActive();
      OwnerHolds(key);
      var answer := stops(tick);
      tick := tick + 1;
      if answer != Raises(false) {
        counts := counts.(pulled := if Owns(key) then counts.pulled + 1 else counts.pulled);
        instances := instances - {key};
        GiveUp(key);
        OneStops(Preferred(), a, Look(), key);
        if key !in Providers(a.leases) {
          OthersAll(a.leases, key);
        }
      } else {
        Ticks({key}, Preferred(), a, tick);
      }
      ok := answer.Stopped?;
    }

    /** Removes this process of a component, if it still is the one. */
    method RemoveProcess(key: string, generation: nat) returns (good: bool)
      requires Valid()
      modifies `tick, `instances, `counts, roles.registry`leases, roles.registry`roleLeases
      ensures Valid() && Passes({key}, Preferred(), old(Look()), Look()) && (Cooperative() ==> good)
      ensures Removed(key, generation, good, old(Look()), Look()) && Peaceful(old(Look()), Look())
      ensures good ==> GenerationIn(instances, key) != Some(generation)
      ensures GenerationIn(old(instances), key) != Some(generation) ==> good && Look() == old(Look())
    {
      hide LeaseInv, IsCandidateOf, Setup, Rightly, Captured, WellFiled, Aligned, Passes, Numbered, Dated;
      good := true;
      if key in instances && instances[key].generation == generation {
        good := Remove(key);
      } else {
        Idle({key});
      }
    }

    /** Stops one process of a component, unless that has been replaced by the time the stop gets to it. If a task that
        waits for this one holds up the component's starts and stops, that never ends. */
    method Stop(key: string, generation: nat) returns (good: bool, stuck: bool)
      requires Valid() && key in generations && generation <= generations[key]
      modifies `tick, `instances, `generations, `exited, `stopRequests, `halting, `locked, `watched, `counts,
               roles.registry`leases, roles.registry`roleLeases, roles.registry`nextToken, fence
      ensures Valid() && Halted(key, generation, good, stuck, old(Look()), Look())
      ensures Told(old(Look()), Look())
      ensures if stuck then Culprit(Preferred(), old(Look()), Look(), key) && key !in fence.visual
        else Goes({key}, Preferred(), old(Look()), Look())
      ensures Spared({key}, Preferred(), old(Look()), Look()) && (Cooperative() && !stuck ==> good)
    {
      hide LeaseInv, IsCandidateOf, Setup, Rightly, Captured, WellFiled, Aligned, Passes, Numbered, Dated, Runs,
           Culprit, Apart, Newer, Goes, Heard, OnlyStops, Calm, Told, Halted, Removed, GenerationIn, Cooperative,
           Peaceful;
      ghost var start := Look();
      stopRequests := stopRequests + {key};
      ghost var a := Look();
      ghost var _ := Interfere();
      ghost var b := Look();
      GoesParts({}, Preferred(), a, b);
      good, stuck := false, key in locked;
      if stuck {
        HeldStop(key, generation, Preferred(), start, a, b);
        CulpritLocked({}, Preferred(), a, b, key);
        CulpritAnyway(Preferred(), a, b, key, start.stopping);
        ToldAnyway(start, a, b);
        SparedAnyway(key, Preferred(), start, a, b);
        return;
      }
      good := RemoveProcess(key, generation);
      ghost var c := Look();
      PassesParts({key}, Preferred(), b, c);
      GoesQuietly({key}, Preferred(), b, c, false);
      ghost var _ := Interfere();
      ghost var d := Look();
      GoesParts({}, Preferred(), c, d);
      GoesFor({}, {key}, Preferred(), a, b);
      GoesThen({key}, Preferred(), a, b, c);
      GoesOn({}, {key}, Preferred(), a, c, d);
      StopTakesEffect(key, generation, good, Preferred(), a, b, c, d);
      stopRequests := stopRequests - {key};
      WasHalted(key, generation, good, Preferred(), start, a, b, c, d, Look());
      GoesWindow(key, Preferred(), start, d);
      GoesParts({key}, Preferred(), start, Look());
    }

    // ---- Consumers ----

    /** Stops the process a consumer had when the role changed hands, if it had one. */
    method StopOriginal(key: string, original: Option<nat>) returns (good: bool)
      requires Valid() && key in fence.visual
      requires (original.Some? ==> key in generations && original.value <= generations[key])
      modifies `tick, `instances, `generations, `exited, `stopRequests, `halting, `locked, `watched, `counts,
               roles.registry`leases, roles.registry`roleLeases, roles.registry`nextToken, fence
      ensures Valid() && Goes({key}, Preferred(), old(Look()), Look()) && counts.opens == old(counts).opens
      ensures good && original.Some? ==> GenerationIn(instances, key) != original
      ensures counts.stirs == old(counts).stirs ==> fence.quarantined == old(fence.quarantined)
      ensures counts.stirs == old(counts).stirs && key !in old(stopRequests) ==> key !in stopRequests
      ensures counts.stirs == old(counts).stirs && good && original == GenerationIn(old(instances), key) ==>
        key !in instances
      ensures counts.stirs == old(counts).stirs && good && original == GenerationIn(old(instances), key) ==>
        (key !in old(stopRequests) && key !in old(fence.quarantined) ==> Vacant(Look(), key))
      ensures Cooperative() ==> good
    {
      hide LeaseInv, IsCandidateOf, Setup, Numbered, Rightly, Captured, WellFiled, Aligned, Passes, Dated, Goes, Told;
      good := true;
      if original.Some? {
        var stuck: bool;
        good, stuck := Stop(key, original.value);
      } else {
        Idle({key});
        GoesQuietly({key}, Preferred(), Look(), Look(), false);
      }
    }

    /** Makes a consumer ready that was let through, or has nothing to be let through. */
    method ReadyConsumer(key: string) returns (good: bool)
      requires Valid() && key in fence.visual
      modifies `tick, `instances, `generations, `exited, `stopRequests, `halting, `locked, `watched, `counts, `looked,
               roles.registry`leases, roles.registry`roleLeases, roles.registry`nextToken, fence
      ensures Valid() && Goes({key}, Preferred(), old(Look()), Look()) && Goes({}, Preferred(), old(Look()), looked)
      ensures (good ==> Ready(key)) && counts.opens == old(counts).opens
      ensures counts.stirs == old(counts).stirs && good ==> fence.quarantined == old(fence.quarantined)
      ensures Vacant(old(Look()), key) ==> AsFenced(good, Cooperative(), old(Look()), looked, Look())
      ensures Fitting(old(Look()), key) && Cooperative() && !BlockedIn(old(Look()), fence.visual, key) ==>
        (Peaceful(old(Look()), Look()) ==> good && Fitting(Look(), key))
    {
      hide LeaseInv, IsCandidateOf, Setup, Numbered, Rightly, Captured, WellFiled, Aligned, Passes, Continues, Dated,
           Goes, Told, Flows, Runs, Calm, OnlyStops, Heard, Readied, Welcome, Cooperative, Continued, AsFenced, Vacant,
           Fitting;
      ghost var b := Look();
      var r, stuck := EnsureReady(key);
      ghost var c := Look();
      ghost var _ := Interfere();
      ghost var d := Look();
      good := r.Some? && key in instances && instances[key] == r.value;
      OneReady(key, Preferred(), b, looked, c, d);
      ConsumerCame(key, Preferred(), r, good, b, c, d);
      if Vacant(b, key) {
        ConsumerFenced(key, Preferred(), fence.visual, Cooperative(), r, good, b, looked, c, d);
      }
      if Fitting(b, key) && Cooperative() && !BlockedIn(b, fence.visual, key) {
        ConsumerUnfenced(key, Preferred(), fence.visual, r, good, b, looked, c, d);
      }
    }

    lemma OneReady(key: string, preferred: Option<string>, b: Scene, looked: Scene, c: Scene, d: Scene)
      requires Goes({key}, preferred, b, c) && Goes({}, preferred, b, looked) && Told(looked, c)
      requires Goes({}, preferred, c, d)
      ensures Goes({key}, preferred, b, d) && Passes({}, preferred, b, looked) && Passes({}, preferred, c, d)
      ensures Passes({key}, preferred, b, c)
      ensures Runs(b, looked) && Runs(looked, c) && Runs(b, c) && Runs(c, d)
    {
      hide Passes, Runs, Calm, OnlyStops;
      GoesOn({}, {key}, preferred, b, c, d);
    }

    /** Lets a consumer through the fence, in an outage, and makes it ready. */
    method StartConsumer(o: Option<Outage>, key: string) returns (good: bool)
      requires Valid() && key in fence.visual && Continued(o, fence.outage)
      modifies `tick, `instances, `generations, `exited, `stopRequests, `halting, `locked, `watched, `counts, `looked,
               `up, roles.registry`leases, roles.registry`roleLeases, roles.registry`nextToken, fence
      ensures Valid() && Goes({key}, Preferred(), old(Look()), Look()) && Flows(old(Look()), looked)
      ensures if good then Ready(key) && up == old(up)[key := instances[key]] else up == old(up)
      ensures counts.stirs == old(counts).stirs && good ==> fence.quarantined == old(fence.quarantined)
      ensures o.None? ==> counts.opens == old(counts).opens
      ensures o.None? && Vacant(old(Look()), key) ==> AsFenced(good, Cooperative(), old(Look()), looked, Look())
      ensures Peaceful(old(Look()), Look()) && Fitting(old(Look()), key) && (o.None? ==> old(fence.outage).None?) ==>
        (Cooperative() ==> good && Fitting(Look(), key))
      ensures o.Some? && key in o.value.budgets ==> LetIn(o.value, key, |old(fence.admissions)|, fence.admissions)
      ensures fence.outage.Some? ==> key !in fence.outage.value.allowed
    {
      hide LeaseInv, IsCandidateOf, Setup, Numbered, Rightly, Captured, WellFiled, Aligned, Passes, Continues, Dated,
           Goes, Told, Flows, Runs, Calm, OnlyStops, Cooperative, Continued, AsFenced, Fitting, LetIn, Vacant;
      ghost var a := Look();
      LetThrough(o, key);
      ghost var b := Look();
      FitsStill(a, b, key);
      good := ReadyConsumer(key);
      ghost var c := Look();
      CloseBehind(key);
      FitsStill(c, Look(), key);
      if good {
        up := up[key := instances[key]];
      }
      LetInAndOut({key}, Preferred(), a, b, looked, c, Look());
      if o.Some? && key in o.value.budgets {
        LetInStill(o.value, key, |a.admissions|, b.admissions, fence.admissions);
      }
      if o.None? && Vacant(a, key) {
        ClosedBehind(good, Cooperative(), a, looked, c, Look());
      }
    }

    lemma GrowsAdmissions(a: Scene, b: Scene)
      requires Flows(a, b)
      ensures a.admissions <= b.admissions
    {
      hide Ages, Drift;
    }

    lemma FitsStill(a: Scene, b: Scene, key: string)
      requires b == a.(outage := b.outage, admissions := b.admissions, counts := b.counts)
      ensures Fitting(a, key) == Fitting(b, key)
    {
    }

    lemma ClosedBehind(good: bool, willing: bool, a: Scene, looked: Scene, c: Scene, d: Scene)
      requires AsFenced(good, willing, a, looked, c) && d.counts == c.counts
      ensures AsFenced(good, willing, a, looked, d)
    {
    }

    lemma LetInAndOut(keys: set<string>, preferred: Option<string>, a: Scene, b: Scene, looked: Scene, c: Scene,
                      d: Scene)
      requires Goes(keys, preferred, a, b) && Goes({}, preferred, b, looked) && Goes(keys, preferred, b, c)
      requires Goes(keys, preferred, c, d)
      ensures Goes(keys, preferred, a, d) && Flows(a, looked) && Runs(a, b) && Runs(b, c) && Runs(c, d)
      ensures b.admissions <= d.admissions
    {
      hide Goes, Passes, Flows, Runs;
      GoesThen(keys, preferred, a, b, c);
      GoesThen(keys, preferred, a, c, d);
      GoesOn({}, keys, preferred, a, b, looked);
      GoesParts(keys, preferred, a, looked);
      PassesParts(keys, preferred, a, looked);
      GoesParts(keys, preferred, a, b);
      GoesParts(keys, preferred, b, c);
      GoesParts(keys, preferred, c, d);
      PassesParts(keys, preferred, b, c);
      PassesParts(keys, preferred, c, d);
      FlowsThen(b, c, d);
      GrowsAdmissions(b, d);
      ToldRuns(a, b);
      ToldRuns(b, c);
      ToldRuns(c, d);
    }

    method LetThrough(o: Option<Outage>, key: string)
      requires Valid() && Continued(o, fence.outage)
      modifies `counts, fence`failureHistory, fence`backoff, fence`outage, fence`admissions
      ensures Valid() && Goes({key}, Preferred(), old(Look()), Look())
      ensures Peaceful(old(Look()), Look()) && (o.None? ==> Look() == old(Look()))
      ensures Look() == old(Look()).(outage := fence.outage, admissions := fence.admissions, counts := counts)
      ensures o.Some? || old(fence.outage).None? ==> !BlockedIn(Look(), fence.visual, key)
      ensures o.Some? ==> fence.CurrentBudget(key) == BaselineIn(o.value, key)
      ensures o.Some? && key in o.value.budgets ==> LetIn(o.value, key, |old(fence.admissions)|, fence.admissions)
    {
      hide LeaseInv, IsCandidateOf, Setup, Rightly, Captured, WellFiled, Aligned, Passes, Continues, Numbered, Dated,
           Goes;
      ghost var a := Look();
      if o.Some? {
        fence.Admit(o.value, key);
        LetInNow(o.value, key, a.admissions, fence.admissions);
        counts := counts.(opens := counts.opens + 1);
      }
      FenceMoves({key}, Preferred(), a, Look());
      GoesQuietly({key}, Preferred(), a, Look(), false);
    }

    method CloseBehind(key: string)
      requires Valid()
      modifies fence`outage
      ensures Valid() && Goes({key}, Preferred(), old(Look()), Look())
      ensures Look() == old(Look()).(outage := fence.outage)
      ensures fence.outage.Some? ==> key !in fence.outage.value.allowed
    {
      hide LeaseInv, IsCandidateOf, Setup, Rightly, Captured, WellFiled, Aligned, Passes, Continues, Numbered, Dated,
           Goes;
      ghost var a := Look();
      fence.Discard(key);
      FenceMoves({key}, Preferred(), a, Look());
      GoesQuietly({key}, Preferred(), a, Look(), false);
    }

    /** Restarts one consumer on the new display; `start` is the moment at which the role changed hands, and `keys` are
        the consumers that were handled since. */
    method RestartConsumer(o: Option<Outage>, key: string, original: Option<nat>, skip: bool,
                           ghost start: Scene, ghost keys: set<string>) returns (good: bool)
      requires Valid() && key in fence.visual && key !in keys && Goes(keys, Preferred(), start, Look())
      requires keys <= fence.visual && Strangers(keys, Preferred(), start) && key !in Providers(start.leases)
      requires original == GenerationIn(start.instances, key) && Continued(o, fence.outage) && Flows(start, looked)
      modifies `tick, `instances, `generations, `exited, `stopRequests, `halting, `locked, `watched, `counts, `looked,
               `up, roles.registry`leases, roles.registry`roleLeases, roles.registry`nextToken, fence
      ensures Valid() && Goes({key}, Preferred(), old(Look()), Look()) && Flows(start, looked)
      ensures good && !skip ==>
        RunsAnew(key, up, start.generations) && Ready(key) && up == old(up)[key := instances[key]]
      ensures !good || skip ==> up == old(up)
      ensures good && key in instances ==> Newer(key, instances[key].generation, start.generations)
      ensures counts.stirs == old(counts).stirs && good ==> fence.quarantined == old(fence.quarantined)
      ensures o.None? ==> counts.opens == old(counts).opens
      ensures CameBack(o, key, skip, good, Cooperative(), start, old(Look()), looked, Look())
      ensures skip && Cooperative() ==> good
    {
      hide LeaseInv, IsCandidateOf, Setup, Numbered, Rightly, Captured, WellFiled, Aligned, Passes, Continued, Newer,
           Dated, Flows, Still, Goes, Told, Cooperative, Strangers, AsFenced, Calm, OnlyStops, CameBack, Vacant,
           GenerationIn, Peaceful, SameOutage, Fence.Valid, RoleRegistry.Valid, Fitting;
      ghost var a := Look();
      GoesParts(keys, Preferred(), start, a);
      PassesParts(keys, Preferred(), start, a);
      OriginalIsNumbered(start, a, key);
      FoundAsItWas(keys, Preferred(), start, a, key);
      good := StopOriginal(key, original);
      ghost var b := Look();
      GoesParts({key}, Preferred(), a, b);
      PassesParts({key}, Preferred(), a, b);
      FlowsThen(start, a, b);
      StillContinues(a, b, o);
      NeverFenced(a, looked, b);
      QuietOutage({key}, a, b);
      if good {
        Replaced(start, b, key);
      }
      if good && !skip {
        VacantFits(b, key);
        good := StartConsumer(o, key);
        ghost var c := Look();
        GoesThen({key}, Preferred(), a, b, c);
        FlowsThen(start, b, looked);
        GoesParts({key}, Preferred(), b, c);
        PassesParts({key}, Preferred(), b, c);
        StaysNew(start, b, c, key);
        if o.None? && Vacant(b, key) {
          FencedSince(good, Cooperative(), a, b, looked, c);
        }
        BackAgain(o, key, good, Cooperative(), start, a, b, looked, c);
      } else {
        NotBack(o, key, skip, good, Cooperative(), start, a, looked, b);
      }
    }

    lemma Begin(keys: seq<string>)
      requires Valid()
      ensures Goes(Elements(keys), Preferred(), Look(), Look()) && Flows(Look(), Look())
    {
      hide LeaseInv, IsCandidateOf, Setup, Numbered, Rightly, Captured, WellFiled, Aligned, Passes, Dated, Flows, Goes,
           Told;
      Idle(Elements(keys));
      GoesQuietly(Elements(keys), Preferred(), Look(), Look(), false);
      PassesParts(Elements(keys), Preferred(), Look(), Look());
    }

    lemma BeforeNext(consumers: seq<string>, k: nat, preferred: Option<string>, start: Scene, a: Scene)
      requires Distinct(consumers) && k < |consumers| && (forall c :: c in consumers ==> c in fence.visual)
      requires Goes(Elements(consumers[..k]), preferred, start, a) && Strangers(fence.visual, preferred, start)
      ensures consumers[k] !in Elements(consumers[..k]) && Elements(consumers[..k]) <= fence.visual
      ensures Strangers(Elements(consumers[..k]), preferred, start) && consumers[k] !in Providers(start.leases)
      ensures Flows(start, a) && (Peaceful(start, a) ==> SameOutage(start.outage, a.outage)) && Runs(start, a)
      ensures Goes(Elements(consumers), preferred, start, a)
    {
      hide Passes, Flows, Told, Distinct, SameOutage, OnlyStops;
      Prefix(consumers, k);
      GoesFor(Elements(consumers[..k]), Elements(consumers), preferred, start, a);
      PassesParts(Elements(consumers[..k]), preferred, start, a);
      QuietOutage(Elements(consumers[..k]), start, a);
    }

    lemma AfterOne(consumers: seq<string>, k: nat, preferred: Option<string>, start: Scene, a: Scene, b: Scene)
      requires Distinct(consumers) && k < |consumers|
      requires Goes(Elements(consumers[..k]), preferred, start, a) && Goes({consumers[k]}, preferred, a, b)
      ensures Goes(Elements(consumers[..k+1]), preferred, start, b) && Flows(a, b) && Runs(a, b)
      ensures Still({consumers[k]}, a, b) && Goes(Elements(consumers), preferred, start, b)
    {
      hide Distinct, Goes, Passes, Flows, Still, Elements, Told;
      Prefix(consumers, k);
      GoesFor(Elements(consumers[..k]), Elements(consumers[..k+1]), preferred, start, a);
      GoesOn({consumers[k]}, Elements(consumers[..k+1]), preferred, start, a, b);
      GoesFor(Elements(consumers[..k+1]), Elements(consumers), preferred, start, b);
      GoesParts({consumers[k]}, preferred, a, b);
      PassesParts({consumers[k]}, preferred, a, b);
      ToldRuns(a, b);
    }

    /** Restarts the next consumer, unless it is quarantined in an outage: then it is only stopped. */
    method RestartNext(o: Option<Outage>, consumers: seq<string>, k: nat, originals: map<string, Instance>,
                       was: seq<string>, ghost before: set<string>, ghost start: Scene)
      returns (good: bool, attempted: seq<string>, ghost spared: set<string>)
      requires Valid() && Distinct(consumers) && (forall c :: c in consumers ==> c in fence.visual) && k < |consumers|
      requires Goes(Elements(consumers[..k]), Preferred(), start, Look()) && Strangers(fence.visual, Preferred(), start)
      requires GenerationIn(originals, consumers[k]) == GenerationIn(start.instances, consumers[k])
      requires Continued(o, fence.outage)
      requires Restarting(consumers, k, true, o, was, before, Cooperative(), up, start, looked, Look())
      modifies `tick, `instances, `generations, `exited, `stopRequests, `halting, `locked, `watched, `counts, `looked,
               `up, roles.registry`leases, roles.registry`roleLeases, roles.registry`nextToken, fence
      ensures Valid() && Goes(Elements(consumers[..k+1]), Preferred(), start, Look()) && Continued(o, fence.outage)
      ensures Goes(Elements(consumers), Preferred(), start, Look())
      ensures Restarting(consumers, k + 1, good, o, attempted, spared, Cooperative(), up, start, looked, Look())
    {
      hide LeaseInv, IsCandidateOf, Setup, Numbered, Rightly, Captured, WellFiled, Aligned, Passes, Continued, Newer,
           Dated, Flows, Still, Distinct, Elements, Restarted, Lasting, Justified, Purged, Goes, Told, Strangers,
           InPeace, OnTime, AsFenced, Cooperative, SameOutage;
      ghost var a, seen, alive := Look(), looked, up;
      var key, skip := consumers[k], Skipped(o, fence.quarantined, consumers[k]);
      attempted, spared := if skip then was else was + [key], if skip then before + {key} else before;
      BeforeNext(consumers, k, Preferred(), start, a);
      good := RestartConsumer(o, key, GenerationIn(originals, key), skip, start, Elements(consumers[..k]));
      AfterOne(consumers, k, Preferred(), start, a, Look());
      StillContinues(a, Look(), o);
      OneMoreRestarted(consumers, k, skip, good, o, was, before, Cooperative(), alive, up, start, seen, a, looked,
                       Look());
    }

    /** Restarts the consumers one by one, as long as the outage is the one that was looked at; stops at the first that
        does not come back. */
    method RestartConsumers(o: Option<Outage>, consumers: seq<string>, originals: map<string, Instance>)
      returns (good: bool, attempted: seq<string>, ghost spared: set<string>)
      requires Valid() && Distinct(consumers) && (forall c :: c in consumers ==> c in fence.visual)
      requires Continued(o, fence.outage)
      requires forall c :: c in consumers ==> GenerationIn(originals, c) == GenerationIn(instances, c)
      modifies `tick, `instances, `generations, `exited, `stopRequests, `halting, `locked, `watched, `counts, `looked,
               `up, roles.registry`leases, roles.registry`roleLeases, roles.registry`nextToken, fence
      ensures Valid() && Goes(Elements(consumers), Preferred(), old(Look()), Look())
      ensures Restarting(consumers, |consumers|, good, o, attempted, spared, Cooperative(), up, old(Look()), looked,
                         Look())
      ensures consumers == [] ==> good && Look() == old(Look()) && looked == old(Look())
      ensures o.Some? && !old(fence.Matches(o.value)) && consumers != [] ==> !good && Look() == old(Look())
    {
      hide LeaseInv, IsCandidateOf, Setup, Numbered, Rightly, Captured, WellFiled, Aligned, Passes, Continued, Newer,
           Dated, Flows, Still, Distinct, Elements, Restarted, Lasting, Justified, Purged, Goes, Told, Strangers,
           InPeace, OnTime, AsFenced, Cooperative, SameOutage, Restarting;
      ghost var start := Look();
      attempted, spared, looked := [], {}, start;
      NoConsumers();
      Begin(consumers[..0]);
      Begin(consumers);
      NoneRestarted(consumers, o, Cooperative(), up, start);
      for k := 0 to |consumers|
        invariant Valid() && Goes(Elements(consumers[..k]), Preferred(), start, Look()) && Continued(o, fence.outage)
        invariant Goes(Elements(consumers), Preferred(), start, Look())
        invariant Restarting(consumers, k, true, o, attempted, spared, Cooperative(), up, start, looked, Look())
        invariant k == 0 ==> Look() == start && looked == start
        invariant k > 0 && o.Some? ==> old(fence.Matches(o.value))
      {
        if o.Some? && !fence.Matches(o.value) {
          BeforeNext(consumers, k, Preferred(), start, Look());
          NoMatch(consumers, o, Cooperative(), start, looked, Look());
          RestartsEnd(consumers, k, false, o, attempted, spared, Cooperative(), up, start, looked, Look());
          return false, attempted, spared;
        }
        good, attempted, spared := RestartNext(o, consumers, k, originals, attempted, spared, start);
        if !good {
          RestartsFail(consumers, k + 1, o, attempted, spared, Cooperative(), up, start, looked, Look());
          return;
        }
      }
      good := true;
      RestartsEnd(consumers, |consumers|, true, o, attempted, spared, Cooperative(), up, start, looked, Look());
    }

    // ---- Providers ----

    /** Stops a provider that holds no role any more, three times at most if it keeps coming back. To stop the one that
        shows the display is to wait for a lock which the migration itself holds: that never ends. */
    method Retire(provider: string) returns (ok: bool, stuck: bool)
      requires Valid()
      modifies `tick, `instances, `generations, `exited, `stopRequests, `halting, `locked, `watched, `counts,
               roles.registry`leases, roles.registry`roleLeases, roles.registry`nextToken, fence
      ensures Valid() && Told(old(Look()), Look())
      ensures if stuck then Culprit(Preferred(), old(Look()), Look(), provider)
        else Goes({provider}, Preferred(), old(Look()), Look())
      ensures Spared({provider}, Preferred(), old(Look()), Look())
      ensures Retired(provider, ok, stuck, Cooperative(), old(Look()), Look())
    {
      hide LeaseInv, IsCandidateOf, Setup, Rightly, Captured, WellFiled, Aligned, Passes, Flows, Still, Dated, Goes,
           Told, Culprit, Retired, Retiring, Halted, Cooperative, OneMoreLoss, Runs;
      ghost var start := Look();
      Idle({provider});
      GoesQuietly({provider}, Preferred(), start, start, false);
      NoAttempts(provider, start);
      stuck := false;
      for attempt := 0 to 3
        invariant Valid() && Goes({provider}, Preferred(), start, Look()) && Told(start, Look())
        invariant Spared({provider}, Preferred(), start, Look())
        invariant Retiring(provider, attempt, start, Look()) && !stuck
      {
        if Outside(provider) || provider !in instances {
          ok := true;
          NoMoreAttempts(provider, true, Cooperative(), attempt, start, Look());
          return;
        }
        ok, stuck := RetireOnce(provider, attempt, start);
        if !ok {
          return;
        }
      }
      ok := provider !in instances || Outside(provider);
      NoMoreAttempts(provider, ok, Cooperative(), 3, start, Look());
    }

    /** One attempt to retire a provider that has a process and no other role. */
    method RetireOnce(provider: string, ghost attempt: nat, ghost start: Scene) returns (ok: bool, stuck: bool)
      requires Valid() && provider in instances && !Outside(provider)
      requires Goes({provider}, Preferred(), start, Look()) && Retiring(provider, attempt, start, Look())
      modifies `tick, `instances, `generations, `exited, `stopRequests, `halting, `locked, `watched, `counts,
               roles.registry`leases, roles.registry`roleLeases, roles.registry`nextToken, fence
      ensures Valid() && Told(start, Look()) && (ok ==> !stuck)
      ensures if stuck then Culprit(Preferred(), start, Look(), provider)
        else Goes({provider}, Preferred(), start, Look())
      ensures Spared({provider}, Preferred(), start, Look())
      ensures if ok then Retiring(provider, attempt + 1, start, Look())
        else Retired(provider, false, stuck, Cooperative(), start, Look())
    {
      hide LeaseInv, IsCandidateOf, Setup, Rightly, Captured, WellFiled, Aligned, Passes, Flows, Still, Dated, Goes,
           Told, Culprit, Retired, Retiring, Halted, Cooperative, OneMoreLoss, Runs;
      ghost var a := Look();
      NobodyActive();
      GoesParts({provider}, Preferred(), start, a);
      ToldRuns(start, a);
      if Owns(provider) {
        TakeDownForGood(provider);
        StillExposed(provider, Cooperative(), attempt, start, a, Look());
        ok, stuck := false, true;
      } else {
        ok, stuck := Stop(provider, instances[provider].generation);
        ToldRuns(a, Look());
        OneMoreAttempt(provider, a.instances[provider].generation, ok, stuck, Cooperative(), attempt, start, a, Look());
      }
      ToldThen(start, a, Look());
      ToldRuns(a, Look());
      SparedThen({provider}, Preferred(), start, a, Look());
      if stuck {
        CulpritThen({provider}, Preferred(), start, a, Look(), provider);
      } else {
        GoesThen({provider}, Preferred(), start, a, Look());
      }
    }

    /** The display is taken down by the migration itself, which then waits for itself. */
    method TakeDownForGood(provider: string)
      requires Valid() && Owns(provider)
      modifies fence
      ensures Valid() && Culprit(Preferred(), old(Look()), Look(), provider) && Told(old(Look()), Look())
      ensures counts == old(counts) && Spared({provider}, Preferred(), old(Look()), Look())
    {
      hide LeaseInv, IsCandidateOf, Setup, Rightly, Captured, WellFiled, Aligned, Passes, Numbered, Dated, Flows,
           Culprit, OneMoreLoss, Told;
      ghost var a := Look();
      OwnerHolds(provider);
      TakeDown(provider);
      LosesItself(a, Look());
      LossIsMore(a, Look());
      CulpritShows(Preferred(), a, Look(), provider);
      GoesQuietly({}, Preferred(), a, Look(), true);
    }

    // ---- Rolling back ----

    /** Stops, last first, the consumers that are not what they were. */
    method StopReplacements(attempted: seq<string>, originals: map<string, Instance>) returns (failures: nat)
      requires Valid() && forall c :: c in attempted ==> c in fence.visual
      modifies `tick, `instances, `generations, `exited, `stopRequests, `halting, `locked, `watched, `counts,
               roles.registry`leases, roles.registry`roleLeases, roles.registry`nextToken, fence
      ensures Valid() && Goes(Elements(attempted), Preferred(), old(Look()), Look())
      ensures counts.stirs == old(counts).stirs ==> fence.quarantined == old(fence.quarantined)
      ensures counts.stirs == old(counts).stirs && failures == 0 ==> NoReplacement(attempted, originals, instances)
      ensures counts.stirs == old(counts).stirs ==> OriginalsStay(attempted, originals, old(instances), instances)
      ensures Cooperative() ==> failures == 0
    {
      hide NoReplacement, OriginalsStay, Apart, LeaseInv, IsCandidateOf, Setup, Rightly, Captured, WellFiled, Aligned,
           Passes, Flows, Still, Elements, Dated, Goes, Told, Cooperative, Culprit, Runs;
      ghost var start := Look();
      ghost var keys := Elements(attempted);
      failures := 0;
      Begin(attempted);
      NoReplacementYet(attempted, originals, instances);
      OriginalsThere(attempted, originals, instances);
      for k := |attempted| downto 0
        invariant Valid() && Goes(keys, Preferred(), start, Look())
        invariant counts.stirs == start.counts.stirs ==> fence.quarantined == start.quarantined
        invariant counts.stirs == start.counts.stirs && failures == 0 ==>
          NoReplacement(attempted[k..], originals, instances)
        invariant counts.stirs == start.counts.stirs ==>
          OriginalsStay(attempted, originals, start.instances, instances)
        invariant Cooperative() ==> failures == 0
      {
        var key := attempted[k];
        ghost var a := Look();
        ApartItself({key}, a.instances);
        if key in instances && GenerationIn(originals, key) != Some(instances[key].generation) {
          var stopped, _ := Stop(key, instances[key].generation);
          AmongThem(attempted, k);
          StopsApart(key, Preferred(), a, Look());
          GoesOn({key}, keys, Preferred(), start, a, Look());
          InOrder(start, a, Look(), keys, Preferred());
          if !stopped {
            failures := failures + 1;
          }
        }
        if counts.stirs == start.counts.stirs {
          OriginalsLeft(attempted, key, originals, start.instances, a.instances, instances);
        }
        if counts.stirs == start.counts.stirs && failures == 0 {
          OneLessReplacement(attempted, k, originals, a, Look());
        }
      }
    }

    lemma StopsApart(key: string, preferred: Option<string>, a: Scene, b: Scene)
      requires Goes({key}, preferred, a, b)
      ensures b.counts.stirs == a.counts.stirs ==> Apart({key}, a.instances, b.instances)
    {
      hide Told, Spared, Flows, Seats;
    }

    lemma InOrder(a: Scene, b: Scene, c: Scene, keys: set<string>, preferred: Option<string>)
      requires Goes(keys, preferred, a, b) && Told(b, c)
      ensures a.counts.stirs <= b.counts.stirs <= c.counts.stirs && Runs(a, b) && Runs(b, c)
    {
      hide Passes, Calm, OnlyStops;
    }

    /** Brings a consumer back: left alone if it is what it was and ready, else started again. */
    method BringBack(key: string, original: Option<nat>) returns (good: bool)
      requires Valid() && key in fence.visual
      modifies `tick, `instances, `generations, `exited, `stopRequests, `halting, `locked, `watched, `counts, `looked,
               `up, roles.registry`leases, roles.registry`roleLeases, roles.registry`nextToken, fence
      ensures Valid() && Goes({key}, Preferred(), old(Look()), Look())
      ensures if good then Ready(key) && up == old(up)[key := instances[key]] else up == old(up)
      ensures good && counts.stirs == old(counts).stirs ==> fence.quarantined == old(fence.quarantined)
      ensures Peaceful(old(Look()), Look()) && key !in old(fence.quarantined) && key !in old(stopRequests) ==>
        (old(fence.outage).None? && Cooperative() ==> good)
    {
      hide LeaseInv, IsCandidateOf, Setup, Rightly, Captured, WellFiled, Aligned, Passes, Flows, Still, Dated,
           Goes, Told, Cooperative, Culprit, AsFenced;
      ghost var a := Look();
      Idle({key});
      GoesQuietly({key}, Preferred(), a, a, false);
      good := true;
      if !(Ready(key) && original == Some(instances[key].generation)) {
        if key in instances {
          good := StopOriginal(key, Some(instances[key].generation));
        }
        if good {
          ghost var b := Look();
          Quietened(key, Preferred(), a, b);
          good := StartConsumer(None, key);
          GoesParts({key}, Preferred(), b, Look());
          InOrder(a, b, Look(), {key}, Preferred());
          GoesThen({key}, Preferred(), a, b, Look());
        }
      } else {
        up := up[key := instances[key]];
      }
    }

    lemma Quietened(key: string, preferred: Option<string>, a: Scene, b: Scene)
      requires Goes({key}, preferred, a, b)
      ensures Runs(a, b) && (Peaceful(a, b) ==> SameOutage(a.outage, b.outage))
    {
      hide Flows, Still, Seats;
      PassesParts({key}, preferred, a, b);
      QuietOutage({key}, a, b);
    }

    method BringAllBack(attempted: seq<string>, originals: map<string, Instance>) returns (failures: nat)
      requires Valid() && Distinct(attempted) && forall c :: c in attempted ==> c in fence.visual
      modifies `tick, `instances, `generations, `exited, `stopRequests, `halting, `locked, `watched, `counts, `looked,
               `up, roles.registry`leases, roles.registry`roleLeases, roles.registry`nextToken, fence
      ensures Valid() && Goes(Elements(attempted), Preferred(), old(Look()), Look())
      ensures Returning(attempted, |attempted|, failures, Cooperative(), up, old(Look()), Look())
    {
      hide LeaseInv, IsCandidateOf, Setup, Numbered, Rightly, Captured, WellFiled, Aligned, Passes, Flows, Still,
           Elements, Distinct, AllUp, Lasting, Dated, Goes, Told, Cooperative, Culprit, Returning, SameOutage,
           Strangers, InPeace;
      ghost var start := Look();
      failures := 0;
      NoConsumers();
      Begin(attempted);
      Begin(attempted[..0]);
      NoneReturned(attempted, Cooperative(), up, start);
      for k := 0 to |attempted|
        invariant Valid() && Goes(Elements(attempted[..k]), Preferred(), start, Look())
        invariant Goes(Elements(attempted), Preferred(), start, Look())
        invariant Returning(attempted, k, failures, Cooperative(), up, start, Look())
      {
        ghost var a, was := Look(), up;
        BeforeNext(attempted, k, Preferred(), start, a);
        BeforeReturn(attempted, k, Preferred(), start, a);
        var good := BringBack(attempted[k], GenerationIn(originals, attempted[k]));
        AfterOne(attempted, k, Preferred(), start, a, Look());
        OneMoreReturned(attempted, k, failures, good, Cooperative(), was, up, start, a, Look());
        if !good {
          failures := failures + 1;
        }
      }
    }

    lemma BeforeReturn(keys: seq<string>, k: nat, preferred: Option<string>, start: Scene, a: Scene)
      requires k < |keys| && Goes(Elements(keys[..k]), preferred, start, a) &&
        Strangers(Elements(keys[..k]), preferred, start)
      requires keys[k] !in Elements(keys[..k]) && keys[k] !in Providers(start.leases)
      ensures a.counts.stirs == start.counts.stirs && keys[k] !in start.stopping ==> keys[k] !in a.stopping
    {
      hide Passes, Elements, Told, OnlyStops, Strangers;
      FoundAsItWas(Elements(keys[..k]), preferred, start, a, keys[k]);
    }

    /** Outside an outage the old provider has to be up again. */
    method ReadyOld(snap: Snapshot) returns (ok: bool, stuck: bool)
      requires Valid()
      modifies `tick, `instances, `generations, `exited, `stopRequests, `halting, `locked, `watched, `counts, `looked,
               roles.registry`leases, roles.registry`roleLeases, roles.registry`nextToken, fence
      ensures Valid() && Told(old(Look()), Look()) && Flows(old(Look()), Look())
      ensures stuck ==> !ok && Wedged(old(Look()), Look()) && snap.outage.None?
      ensures snap.outage.Some? ==> Look() == old(Look())
      ensures Peaceful(old(Look()), Look()) && !stuck ==> fence.losses == old(fence.losses)
      ensures ok && snap.outage.None? && snap.provider.Some? ==> Ready(snap.provider.value)
      ensures Peaceful(old(Look()), Look()) && stuck ==> OldDead(snap, old(Look()))
      ensures Peaceful(old(Look()), Look()) && OldAvailable(snap, fence.visual, old(Look())) ==> (Cooperative() ==> ok)
    {
      hide LeaseInv, IsCandidateOf, Setup, Numbered, Rightly, Captured, WellFiled, Aligned, Passes, Flows, Still, Dated,
           Goes, Told, Cooperative, Culprit, Wedged;
      ghost var a := Look();
      ok, stuck := true, false;
      Begin([]);
      GoesParts(Elements<string>([]), Preferred(), a, a);
      if snap.provider.Some? && snap.outage.None? {
        var r: Option<Instance>;
        r, stuck := EnsureReady(snap.provider.value);
        ok := r.Some?;
        if stuck {
          WedgedSince(Preferred(), a, a, Look(), snap.provider.value);
          WedgedFlows(a, Look());
        } else {
          GoesParts({snap.provider.value}, Preferred(), a, Look());
          PeaceLosesNothing({snap.provider.value}, Preferred(), a, Look());
        }
      }
    }

    /** The role goes back; in an outage, to the old provider if that is up already. */
    method PutBack(snap: Snapshot, ghost provider: string) returns (ok: bool)
      requires Valid() && SnapshotOk(roles.registry.roles[DISPLAY], snap, provider)
      modifies roles`overrides, roles`tick, roles`disk, roles.registry
      ensures Valid() && SeatBack(snap, Leases()) && Elsewhere() == old(Elsewhere())
      ensures roles.overrides == Overridden(old(roles.overrides), snap.override)
      ensures ok ==> roles.disk == roles.overrides
      ensures Cooperative() ==> ok
      ensures if ok && snap.outage.Some? && snap.leases == [] && snap.provider.Some? && Ready(snap.provider.value) &&
                 Preferred() == snap.provider
        then Grants(Leases()) == [Grant(snap.provider.value, Holder(instances[snap.provider.value].generation))]
        else HeldFor(snap.leases, Grants(Leases()), instances)
    {
      hide LeaseInv, IsCandidateOf, Setup, Numbered, Rightly, Captured, WellFiled, Aligned, SnapshotOk, Restorable,
           Dated, HeldFor;
      SnapshotRestorable(roles.registry.roles[DISPLAY], snap, provider);
      Willing(roles.tick);
      ok := RestoreRole(snap.leases, snap.override);
      if ok && snap.outage.Some? && snap.provider.Some? && Ready(snap.provider.value) {
        ghost var before := Leases();
        LeasePreferred(snap.provider.value);
        LeasedBack(snap, before, Leases(), Holder(instances[snap.provider.value].generation));
      }
    }

    /** The first half of a rollback: replacements down, old provider up, role back. */
    method Unwind(snap: Snapshot, attempted: seq<string>, originals: map<string, Instance>, ghost provider: string)
      returns (failures: nat, stuck: bool)
      requires Valid() && SnapshotOk(roles.registry.roles[DISPLAY], snap, provider)
      requires forall c :: c in attempted ==> c in fence.visual
      requires snap.provider.Some? ==> snap.provider.value !in fence.visual
      modifies `tick, `instances, `generations, `exited, `stopRequests, `halting, `locked, `watched, `counts, `looked,
               roles`overrides, roles`tick, roles`disk, roles.registry, fence
      ensures Valid() && Flows(old(Look()), Look()) && Told(old(Look()), Look())
      ensures stuck ==> Wedged(old(Look()), Look()) && snap.outage.None?
      ensures !stuck ==> SeatBack(snap, Leases()) && roles.overrides == Overridden(old(roles.overrides), snap.override)
      ensures !stuck ==> Reseated(snap, Look())
      ensures !stuck && failures == 0 ==> roles.disk == roles.overrides
      ensures !stuck && failures == 0 && snap.outage.None? && snap.provider.Some? ==> Ready(snap.provider.value)
      ensures Peaceful(old(Look()), Look()) && failures == 0 && snap.outage.Some? ==>
        NoReplacement(attempted, originals, instances)
      ensures Peaceful(old(Look()), Look()) ==>
        && (if stuck then OldDead(snap, old(Look())) else fence.losses == old(fence.losses))
        && (Cooperative() && OldAvailable(snap, fence.visual, old(Look())) ==> failures == 0 && !stuck)
    {
      hide LeaseInv, IsCandidateOf, Setup, Numbered, Rightly, Captured, WellFiled, Aligned, SnapshotOk, SeatBack,
           Passes, Flows, Still, Elements, Dated, Goes, Told, Cooperative, Culprit, Wedged, Strangers, OldDead,
           OldAvailable, NoReplacement, HeldFor;
      ghost var a := Look();
      NoConsumers();
      failures := StopReplacements(attempted, originals);
      ghost var b := Look();
      AfterStops(attempted, Preferred(), snap, a, b);
      var ok;
      ok, stuck := ReadyOld(snap);
      ghost var c := Look();
      FlowsThen(a, b, c);
      ToldThen(a, b, c);
      ToldRuns(b, c);
      if stuck {
        WedgedThen(a, b, c);
        return;
      }
      if !ok {
        failures := failures + 1;
      }
      ok := PutBack(snap, provider);
      FlowsLeases(a, c, Leases());
      ToldLeases(a, c, Look());
      if !ok {
        failures := failures + 1;
      }
    }

    lemma ToldLeases(a: Scene, b: Scene, c: Scene)
      requires Told(a, b) && c.counts == b.counts && c.tick == b.tick && c.losses == b.losses
      ensures Told(a, c)
    {
    }

    lemma AfterStops(attempted: seq<string>, preferred: Option<string>, snap: Snapshot, a: Scene, b: Scene)
      requires Goes(Elements(attempted), preferred, a, b) && Strangers(fence.visual, preferred, a)
      requires forall c :: c in attempted ==> c in fence.visual
      requires snap.provider.Some? ==> snap.provider.value !in fence.visual
      requires b.counts.stirs == a.counts.stirs ==> b.quarantined == a.quarantined
      ensures Flows(a, b) && Told(a, b) && Runs(a, b)
      ensures Peaceful(a, b) ==> b.losses == a.losses
      ensures Peaceful(a, b) ==> (OldDead(snap, b) ==> OldDead(snap, a))
      ensures Peaceful(a, b) ==> (OldAvailable(snap, fence.visual, a) ==> OldAvailable(snap, fence.visual, b))
    {
      hide Passes, Flows, Told, OnlyStops, OldDead, OldAvailable;
      assert Elements(attempted) <= fence.visual;
      PassesParts(Elements(attempted), preferred, a, b);
      PeaceLosesNothing(Elements(attempted), preferred, a, b);
      OldUntouched(Elements(attempted), fence.visual, preferred, snap, a, b);
    }

    lemma NotSeated(snap: Snapshot, provider: string)
      requires Valid() && SnapshotOk(roles.registry.roles[DISPLAY], snap, provider) && SeatBack(snap, Leases())
      requires Fresh(snap, provider)
      ensures !OwnsIn(Look(), provider) && provider !in Providers(Leases())
    {
      hide LeaseInv, IsCandidateOf, Setup, Numbered, Aligned, Restorable, Dated, Rightly, Captured, WellFiled;
      NobodyActive();
      NotAmongThem(roles.registry.roles[DISPLAY], snap, provider, Leases());
    }

    /** A provider that was started for the migration goes down again. */
    method RetireNew(snap: Snapshot, provider: string) returns (ok: bool, stuck: bool)
      requires Valid()
      modifies `tick, `instances, `generations, `exited, `stopRequests, `halting, `locked, `watched, `counts,
               roles.registry`leases, roles.registry`roleLeases, roles.registry`nextToken, fence
      ensures Valid() && Flows(old(Look()), Look()) && Told(old(Look()), Look())
      ensures stuck ==> Culprit(Preferred(), old(Look()), Look(), provider)
      ensures NewRetired(snap, provider, ok, stuck, Cooperative(), old(Look()), Look())
    {
      hide LeaseInv, IsCandidateOf, Setup, Numbered, Rightly, Captured, WellFiled, Aligned, Passes, Flows, Still, Dated,
           Goes, Told, Cooperative, Culprit, Retired, NewRetired;
      ghost var a := Look();
      Begin([]);
      GoesParts(Elements<string>([]), Preferred(), a, a);
      ok, stuck := true, false;
      if snap.provider != Some(provider) && !snap.hadTarget && !Outside(provider) {
        ok, stuck := Retire(provider);
        if stuck {
          CulpritFlows(Preferred(), a, Look(), provider);
        } else {
          GoesParts({provider}, Preferred(), a, Look());
          PassesParts({provider}, Preferred(), a, Look());
        }
        NewWasRetired(snap, provider, ok, stuck, Cooperative(), a, Look());
      } else {
        NewWasLeft(snap, provider, Cooperative(), a);
      }
    }

    /** A consumer stays down, with the budget the outage captured. */
    method KeepOneDown(o: Outage, key: string)
      requires Valid()
      modifies fence`failureHistory, fence`backoff, fence`quarantined, fence`quarantineTimes
      ensures Valid() && Look() == old(Look()).(quarantined := fence.quarantined)
      ensures DownAgain(o, key, fence.Budgets())
      ensures forall other :: DownAgain(o, other, old(fence.Budgets())) ==> DownAgain(o, other, fence.Budgets())
    {
      hide LeaseInv, IsCandidateOf, Setup, Numbered, Rightly, Captured, WellFiled, Aligned, Dated;
      fence.RestoreBudget(o, key);
      if key !in o.preexisting {
        fence.LiftQuarantine(key);
      }
      forall other | DownAgain(o, other, old(fence.Budgets())) ensures DownAgain(o, other, fence.Budgets()) {
        assert other != key ==> fence.CurrentBudget(other) == old(fence.CurrentBudget(other));
      }
    }

    /** In an outage the consumers stay down. */
    method KeepDown(o: Outage, attempted: seq<string>)
      requires Valid()
      modifies `tick, `instances, `generations, `exited, `stopRequests, `halting, `locked, `watched, `counts,
               roles.registry`leases, roles.registry`roleLeases, roles.registry`nextToken, fence
      ensures Valid() && Flows(old(Look()), Look()) && Told(old(Look()), Look())
      ensures Peaceful(old(Look()), Look()) ==>
        && Leases() == old(Leases()) && instances == old(instances) && fence.outage == old(fence.outage)
        && forall c :: c in attempted ==> DownAgain(o, c, fence.Budgets())
    {
      hide LeaseInv, IsCandidateOf, Setup, Rightly, Captured, WellFiled, Aligned, Passes, Flows, DownAgain, Dated, Goes,
           Told, Heard, Fence.Valid, RoleRegistry.Valid;
      ghost var start := Look();
      Begin([]);
      GoesParts(Elements<string>([]), Preferred(), start, start);
      for k := 0 to |attempted|
        invariant Valid() && Flows(start, Look()) && Told(start, Look())
        invariant Peaceful(start, Look()) ==>
          && Leases() == start.leases && instances == start.instances && fence.outage == start.outage
          && forall j :: 0 <= j < k ==> DownAgain(o, attempted[j], fence.Budgets())
      {
        ghost var a := Look();
        ghost var _ := Interfere();
        ghost var b := Look();
        GoesParts({}, Preferred(), a, b);
        PassesParts({}, Preferred(), a, b);
        ToldRuns(start, a);
        FlowsThen(start, a, b);
        ToldThen(start, a, b);
        KeepOneDown(o, attempted[k]);
        FlowsQuarantine(start, b, fence.quarantined);
        ToldLeases(start, b, Look());
      }
    }

    /** The second half of a rollback: new provider down, and the consumers as they were; in an outage they stay down,
        with their captured budgets. */
    method Settle(snap: Snapshot, attempted: seq<string>, originals: map<string, Instance>, provider: string)
      returns (failures: nat, stuck: bool)
      requires Valid() && SnapshotOk(roles.registry.roles[DISPLAY], snap, provider) && SeatBack(snap, Leases())
      requires Distinct(attempted) && forall c :: c in attempted ==> c in fence.visual
      requires provider !in fence.visual && (snap.provider.Some? ==> snap.provider.value !in fence.visual)
      modifies `tick, `instances, `generations, `exited, `stopRequests, `halting, `locked, `watched, `counts, `looked,
               `up, roles.registry`leases, roles.registry`roleLeases, roles.registry`nextToken, fence
      ensures Valid() && Flows(old(Look()), Look()) && Told(old(Look()), Look())
      ensures stuck ==> Wedged(old(Look()), Look())
      ensures Settled(snap, provider, attempted, failures, stuck, Cooperative(), old(Look()), Look(), up,
                      fence.Budgets())
    {
      hide LeaseInv, IsCandidateOf, Setup, Numbered, Rightly, Captured, WellFiled, Aligned, SnapshotOk, SeatBack,
           Passes, Flows, Still, Elements, Distinct, AllUp, Lasting, DownAgain, SameOutage, Dated, Goes, Told,
           Cooperative, Culprit, Wedged, NewRetired, Settled, Returning, Strangers, Runs, Peaceful, GenerationIn,
           OwnsIn;
      ghost var a := Look();
      if Fresh(snap, provider) {
        NotSeated(snap, provider);
      }
      var ok;
      ok, stuck := RetireNew(snap, provider);
      failures := if ok then 0 else 1;
      ghost var b := Look();
      ToldRuns(a, b);
      if stuck {
        StuckAtNew(snap, provider, attempted, ok, a, b);
        failures := 1;
        return;
      }
      if snap.outage.Some? {
        KeepDown(snap.outage.value, attempted);
        FlowsThen(a, b, Look());
        ToldRuns(b, Look());
        SettledDown(snap, provider, attempted, ok, Cooperative(), a, b, Look(), up, fence.Budgets());
      } else {
        NoConsumers();
        var more := BringAllBack(attempted, originals);
        GoesParts(Elements(attempted), Preferred(), b, Look());
        SettledBack(snap, provider, attempted, ok, more, Cooperative(), fence.visual, Preferred(), a, b, Look(), up,
                    fence.Budgets());
        failures := failures + more;
      }
      ToldThen(a, b, Look());
    }

    lemma StuckAtNew(snap: Snapshot, provider: string, attempted: seq<string>, ok: bool, a: Scene, b: Scene)
      requires Valid() && NewRetired(snap, provider, ok, true, Cooperative(), a, b) && b == Look()
      requires Culprit(Preferred(), a, b, provider) && Flows(a, b)
      requires Fresh(snap, provider) ==> !OwnsIn(a, provider)
      ensures Settled(snap, provider, attempted, 1, true, Cooperative(), a, b, up, fence.Budgets()) && Wedged(a, b)
    {
      hide Flows, Culprit, Settled, Wedged, SameOutage, Cooperative;
      SettledNever(snap, provider, attempted, Cooperative(), a, b, up, fence.Budgets());
      FlowsSame(a, b);
      WedgedSince(Preferred(), a, a, b, provider);
    }

    method PutRecordBack(o: Option<Outage>)
      requires Valid() && Continued(o, fence.outage) && (o.Some? ==> Recorded(o.value))
      modifies fence`outage, fence`forgotten
      ensures Valid() && fence.outage == Reinstated(o, old(fence.outage))
    {
      hide LeaseInv, IsCandidateOf, Setup, Numbered, Rightly, Captured, WellFiled, Aligned, Dated;
      if o.Some? {
        fence.Reinstate(o.value);
      }
    }

    /** The whole rollback. In an outage the record is put back as it was looked at, whatever was lost since. It never
        ends if the old provider shows the display with a process whose exit nobody has seen, or if the new one does. */
    method RollBack(snap: Snapshot, attempted: seq<string>, originals: map<string, Instance>, provider: string)
      returns (failures: nat, stuck: bool, ghost back: Scene)
      requires Valid() && SnapshotOk(roles.registry.roles[DISPLAY], snap, provider)
      requires Continued(snap.outage, fence.outage) && (snap.outage.Some? ==> Recorded(snap.outage.value))
      requires Distinct(attempted) && forall c :: c in attempted ==> c in fence.visual
      requires provider !in fence.visual && (snap.provider.Some? ==> snap.provider.value !in fence.visual)
      requires Flows(Look(), Look())
      modifies this, roles`overrides, roles`tick, roles`disk, roles.registry, fence
      ensures Valid() && Flows(old(Look()).(outage := Reinstated(snap.outage, old(fence.outage))), Look())
      ensures Told(old(Look()), Look()) && (stuck ==> snap.outage.None? || Fresh(snap, provider))
      ensures stuck ==> Wedged(old(Look()).(outage := Reinstated(snap.outage, old(fence.outage))), Look())
      ensures !stuck ==>
        && roles.overrides == Overridden(old(roles.overrides), snap.override) && Runs(old(Look()), back)
        && Reseated(snap, back)
        && RolledBack(snap, attempted, failures == 0, back, Look(), up, fence.Budgets())
      ensures !stuck && failures == 0 ==> roles.disk == roles.overrides
      ensures !stuck && failures == 0 && Peaceful(back, Look()) ==> NewGone(snap, provider, back, Look())
      ensures !stuck && failures == 0 && snap.outage.Some? && Peaceful(old(Look()), Look()) ==>
        NoReplacement(attempted, originals, instances)
      ensures Peaceful(old(Look()), Look()) && stuck ==> OldDead(snap, old(Look())) || provider in old(locked)
      ensures Peaceful(old(Look()), Look()) && Cooperative() && attempted == [] && !stuck ==>
        (OldAvailable(snap, fence.visual, old(Look())) ==> failures == 0)
    {
      hide LeaseInv, IsCandidateOf, Setup, Numbered, Rightly, Captured, WellFiled, Aligned, SnapshotOk, SeatBack,
           Passes, Flows, Still, Elements, Distinct, AllUp, Lasting, DownAgain, SameOutage, Continued, Dated, Goes,
           Told, Cooperative, Culprit, Wedged, Settled, OldDead, OldAvailable, RolledBack, Reinstated, Recorded,
           NoReplacement, NewGone, Apart, Reseated;
      ghost var start := Look();
      PutRecordBack(snap.outage);
      ghost var a := Look();
      failures, stuck := Unwind(snap, attempted, originals, provider);
      back := Look();
      ToldRuns(a, back);
      ToldOutage(start, a, back);
      OldElsewhere(snap, fence.visual, start, a);
      if stuck {
        return;
      }
      ghost var before := failures;
      var more: nat;
      more, stuck := Settle(snap, attempted, originals, provider);
      ToldRuns(back, Look());
      FlowsThen(a, back, Look());
      ToldThen(start, back, Look());
      failures := failures + more;
      if stuck {
        WedgedThen(a, back, Look());
        SettledStuck(snap, provider, attempted, more, Cooperative(), back, Look(), up, fence.Budgets());
        LockedBefore(a, back, provider);
      } else {
        SettledSo(snap, provider, attempted, before, more, Cooperative(), back, Look(), up, fence.Budgets());
        if failures == 0 && snap.outage.Some? && Peaceful(start, Look()) {
          NoReplacementApart(attempted, originals, provider, fence.visual, back.instances, instances);
        }
      }
    }

    lemma ToldOutage(start: Scene, a: Scene, b: Scene)
      requires Told(a, b) && start == a.(outage := start.outage)
      ensures Told(start, b) && Runs(start, b)
    {
    }

    // ---- Migrating ----

    function TakeSnapshot(provider: string): Snapshot
      reads this, roles, roles.registry, fence
      requires Valid()
    {
      var active := roles.registry.ActiveProvider(DISPLAY);
      var former := if active.Some? then active else roles.registry.PreferredProvider(DISPLAY);
      Snapshot(roles.registry.ActiveLeases(DISPLAY), former, Override(roles.overrides, DISPLAY),
               if former.Some? then GenerationIn(instances, former.value) else None,
               provider in instances, fence.outage)
    }

    /** Only where several may hold the display role at once: whoever holds it without showing it has a process. */
    ghost predicate HeldByProcess(provider: string)
      reads this, roles, roles.registry
      requires roles.Valid() && DISPLAY in roles.registry.roles
    {
      !roles.registry.roles[DISPLAY].exclusive && provider in Providers(Leases()) && !Owns(provider) ==>
        provider in instances
    }

    lemma SnapshotFacts(provider: string)
      requires Valid() && HeldByProcess(provider) && IsCandidateOf(roles.registry.roles[DISPLAY], provider)
      ensures var snap := TakeSnapshot(provider);
        && SnapshotOk(roles.registry.roles[DISPLAY], snap, provider) && provider !in fence.visual
        && (snap.provider.Some? ==> snap.provider.value !in fence.visual)
        && (snap.outage.Some? ==> Recorded(snap.outage.value)) && Continued(snap.outage, fence.outage)
        && roles.overrides == Overridden(roles.overrides, snap.override)
        && snap.provider == (if Leases() != [] then Some(Leases()[0].provider) else Preferred())
        && snap.generation == (if snap.provider.Some? && snap.provider.value in instances
                               then Some(instances[snap.provider.value].generation) else None)
    {
      hide LeaseInv, Numbered, WellFiled, Rightly, Dated;
      NobodyActive();
      roles.registry.ActiveFacts(DISPLAY);
      if Preferred().Some? {
        roles.registry.PreferredIsCandidate(DISPLAY);
      }
      if Leases() != [] {
        assert Leases()[0] in Leases();
      }
      OverriddenWhole(roles.overrides, roles.overrides);
    }

    /** Who has to be restarted: those the outage recorded, then whoever else runs on the session. */
    function ConsumerList(o: Option<Outage>): seq<string>
      reads this, fence
    {
      var running := set k | k in instances && k in fence.visual && instances[k].stage != Over;
      if o.None? then order(running)
      else
        var recorded := Visual(o.value.consumers, fence.visual);
        FirstOccurrences(recorded + order(running - set k | k in recorded))
    }

    lemma ConsumerListComplete(o: Option<Outage>)
      requires Valid()
      ensures Distinct(ConsumerList(o))
      ensures forall k :: k in ConsumerList(o) <==> Concerned(o, fence.visual, instances, k)
      ensures o.Some? ==> FirstOccurrences(Visual(o.value.consumers, fence.visual)) <= ConsumerList(o)
    {
      hide LeaseInv, IsCandidateOf, Numbered, Aligned, Rightly, Captured, WellFiled, Dated;
      var running := set k | k in instances && k in fence.visual && instances[k].stage != Over;
      OrderKeeps(roles.registry.roles[DISPLAY], fence.visual, order, running);
      if o.Some? {
        var recorded := Visual(o.value.consumers, fence.visual);
        OrderKeeps(roles.registry.roles[DISPLAY], fence.visual, order, running - set k | k in recorded);
        FirstOnesFirst(recorded, order(running - set k | k in recorded));
      }
    }

    /** Everything is up. If the new provider still shows the display, before and after the foreground is activated
        again, the preference is written. */
    method Confirm(o: Option<Outage>, provider: string, generation: nat, ghost given: Scene, ghost keys: set<string>)
      returns (good: bool)
      requires Valid() && Goes(keys, Preferred(), given, Look()) && Took(given, provider, generation)
      requires provider !in keys
      modifies `tick, `instances, `generations, `exited, `stopRequests, `halting, `locked, `watched, `counts,
               roles`tick, roles`disk, roles.registry`leases, roles.registry`roleLeases, roles.registry`nextToken, fence
      ensures Valid() && Goes(keys, Preferred(), given, Look()) && Goes({}, Preferred(), old(Look()), Look())
      ensures Confirmed(o, provider, generation, good, Cooperative(), |events(old(tick))|, given, old(Look()), Look())
      ensures !old(Shows(provider, generation)) ==> !good && Look() == old(Look())
      ensures good ==> roles.disk == roles.overrides
      ensures roles.disk == old(roles.disk) || Shown(Look(), provider, generation)
    {
      hide LeaseInv, IsCandidateOf, Setup, Numbered, Rightly, Captured, WellFiled, Aligned, Passes, Flows, Still, Apart,
           Dated, Goes, Told, Cooperative, Confirmed, Took, Shown;
      ghost var a := Look();
      ghost var n := |events(tick)|;
      NobodyActive();
      Idle({});
      GoesQuietly({}, Preferred(), a, a, false);
      GoesParts(keys, Preferred(), given, a);
      ToldRuns(given, a);
      if !Shows(provider, generation) {
        NotConfirmed(o, provider, generation, Cooperative(), n, keys, Preferred(), given, a, a);
        return false;
      }
      ghost var _ := Interfere();
      ghost var b := Look();
      GoesOn({}, keys, Preferred(), given, a, b);
      GoesParts(keys, Preferred(), given, b);
      GoesParts({}, Preferred(), a, b);
      NobodyActive();
      if !Shows(provider, generation) {
        NotConfirmed(o, provider, generation, Cooperative(), n, keys, Preferred(), given, a, b);
        return false;
      }
      ShownStill(keys, Preferred(), given, b, provider, generation);
      Willing(roles.tick);
      var written := roles.Persist();
      good := written && (o.Some? ==> fence.Matches(o.value));
      WasConfirmed(o, provider, generation, written, good, Cooperative(), n, keys, Preferred(), given, a, b);
    }

    /** The old provider goes, unless it holds another role. It does not show the display, but whoever saw it fail while
        it did may hold it up. */
    method RetireOld(snap: Snapshot, provider: string) returns (good: bool, stuck: bool)
      requires Valid() && OwnsIn(Look(), provider) && Preferred() == Some(provider)
      modifies `tick, `instances, `generations, `exited, `stopRequests, `halting, `locked, `watched, `counts,
               roles.registry`leases, roles.registry`roleLeases, roles.registry`nextToken, fence
      ensures Valid() && Told(old(Look()), Look())
      ensures OldRetired(snap, provider, good, stuck, Cooperative(), old(Look()), Look())
      ensures Spared(OldOf(snap, provider), Preferred(), old(Look()), Look())
      ensures if stuck then
          !good && snap.provider.Some? && Culprit(Preferred(), old(Look()), Look(), snap.provider.value)
        else Goes(OldOf(snap, provider), Preferred(), old(Look()), Look())
    {
      hide LeaseInv, IsCandidateOf, Setup, Numbered, Rightly, Captured, WellFiled, Aligned, Passes, Flows, Still, Dated,
           Goes, Told, Cooperative, Culprit, Retired, OldRetired;
      ghost var a := Look();
      good, stuck := true, false;
      Idle(OldOf(snap, provider));
      GoesQuietly(OldOf(snap, provider), Preferred(), a, a, false);
      if snap.provider.Some? && snap.provider.value != provider && !Outside(snap.provider.value) {
        good, stuck := Retire(snap.provider.value);
        OldWasRetired(snap, provider, good, stuck, Cooperative(), a, Look());
      } else {
        OldWasLeft(snap, provider, Cooperative(), a);
      }
    }

    /** The end of a migration: the preference is written and the old provider goes. In an outage, that has to be the
        one that was looked at, before and after. */
    method Conclude(snap: Snapshot, provider: string, generation: nat, ghost given: Scene, ghost keys: set<string>)
      returns (good: bool, stuck: bool, ghost written: Scene)
      requires Valid() && Goes(keys, Preferred(), given, Look()) && Took(given, provider, generation)
      requires Preferred() == Some(provider) && provider !in keys &&
        (forall k :: k in OldOf(snap, provider) ==> k !in keys)
      requires Continued(snap.outage, fence.outage)
      modifies `tick, `instances, `generations, `exited, `stopRequests, `halting, `locked, `watched, `counts,
               roles`tick, roles`disk, roles.registry`leases, roles.registry`roleLeases, roles.registry`nextToken, fence
      ensures Valid() && Flows(old(Look()), Look()) && Told(old(Look()), Look())
      ensures stuck ==> Wedged(old(Look()), Look())
      ensures Spared(keys + OldOf(snap, provider), Preferred(), given, Look())
      ensures Concluded(snap, provider, good, stuck, Cooperative(), |events(old(tick))|, given, old(Look()), written,
                        Look())
      ensures Passes(keys, Preferred(), given, written) && Flows(written, Look()) && Runs(written, Look())
      ensures !stuck ==> Passes(keys + OldOf(snap, provider), Preferred(), given, Look())
      ensures good ==> !stuck && roles.disk == roles.overrides && Shown(written, provider, generation)
      ensures good ==> AsSeen(snap.outage, fence.outage) && OldGone(snap, provider, Look())
      ensures !stuck && counts.stirs == old(counts).stirs ==> Apart(OldOf(snap, provider), old(instances), instances)
    {
      hide OldGone, LeaseInv, IsCandidateOf, Setup, Numbered, Rightly, Captured, WellFiled, Aligned, Passes, Flows,
           Still, Apart, Dated, Goes, Told, Cooperative, Culprit, OldRetired, Concluded, Took, AsSeen, Continued,
           OwnsIn, SameOutage, Wedged, Spared;
      ghost var a, n := Look(), |events(tick)|;
      good := Confirm(snap.outage, provider, generation, given, keys);
      written := Look();
      Confirming(snap, provider, keys, Preferred(), given, a, written);
      stuck := false;
      if !good {
        NotConcluded(snap, provider, generation, Cooperative(), n, keys, Preferred(), given, a, written);
        return;
      }
      ShownOwns(written, provider, generation);
      good, stuck := RetireOld(snap, provider);
      ghost var c := Look();
      ToldRuns(written, c);
      ToldThen(a, written, c);
      SparedSince(OldOf(snap, provider), keys + OldOf(snap, provider), Preferred(), given, written, c);
      if stuck {
        WedgedSince(Preferred(), a, written, c, snap.provider.value);
        WedgedFlows(a, c);
        CulpritFlows(Preferred(), written, c, snap.provider.value);
      } else {
        GoesParts(OldOf(snap, provider), Preferred(), written, c);
        ConcludeRetired(keys, Preferred(), given, a, written, c, snap, provider);
      }
      WasConcluded(snap, provider, generation, good, stuck, Cooperative(), n, keys, Preferred(), given, a, written, c);
      good := good && (snap.outage.Some? ==> fence.Matches(snap.outage.value));
      MatchesIsSeen(snap.outage);
    }

    lemma SparedSince(few: set<string>, many: set<string>, preferred: Option<string>, a: Scene, b: Scene, c: Scene)
      requires Goes(many, preferred, a, b) && Spared(few, preferred, b, c) && Runs(b, c) && few <= many
      ensures Spared(many, preferred, a, c)
    {
      hide Passes, Told, OnlyStops;
      assert Strangers(many, preferred, b) ==> Strangers(few, preferred, b);
      SparedThen(many, preferred, a, b, c);
    }

    lemma MatchesIsSeen(o: Option<Outage>)
      ensures AsSeen(o, fence.outage) <==> (o.Some? ==> fence.Matches(o.value))
    {
    }

    lemma Confirming(snap: Snapshot, provider: string, keys: set<string>, preferred: Option<string>, given: Scene,
                     a: Scene, b: Scene)
      requires Goes(keys, preferred, given, a) && Goes({}, preferred, a, b) && Goes(keys, preferred, given, b)
      requires Continued(snap.outage, a.outage)
      ensures Passes(keys, preferred, given, b) && Passes({}, preferred, a, b) && Told(a, b) && Flows(a, b) &&
        Runs(a, b)
      ensures Peaceful(given, b) ==> SameOutage(given.outage, b.outage)
      ensures Continued(snap.outage, b.outage) && Flows(b, b) && Apart({}, a.instances, a.instances)
      ensures Goes(keys + OldOf(snap, provider), preferred, given, b)
      ensures Spared(keys + OldOf(snap, provider), preferred, given, b)
      ensures Passes(keys + OldOf(snap, provider), preferred, given, b)
      ensures b.counts.stirs == a.counts.stirs ==> Apart(OldOf(snap, provider), a.instances, b.instances)
    {
      hide Drift, Ages, Seats, Told, OnlyStops;
      GoesFor(keys, keys + OldOf(snap, provider), preferred, given, b);
      PassesParts({}, preferred, a, b);
      PassesParts(keys, preferred, given, b);
      QuietOutage(keys, given, b);
      StillContinues(a, b, snap.outage);
      FlowsEnd(a, b);
      Widen(keys, keys + OldOf(snap, provider), preferred, given, b);
    }

    /** All consumers are up: the migration is concluded. */
    method Finish(snap: Snapshot, provider: string, generation: nat, list: seq<string>, ghost given: Scene)
      returns (good: bool, stuck: bool, ghost written: Scene)
      requires Valid() && Preferred() == Some(provider) && Took(given, provider, generation)
      requires Grants(given.leases) == [Grant(provider, Holder(generation))] && provider !in fence.visual
      requires Continued(snap.outage, fence.outage) && (snap.provider.Some? ==> snap.provider.value !in fence.visual)
      requires (forall c :: c in list ==> c in fence.visual) && Goes(Elements(list), Preferred(), given, Look())
      requires InPeace(list, snap.outage, true, Cooperative(), given, Look())
      requires OnTime(list, snap.outage, true, Cooperative(), given, looked, Look())
      requires list == [] ==> looked == given && Look() == given
      modifies this, roles`tick, roles`disk, roles.registry`leases, roles.registry`roleLeases, roles.registry`nextToken,
               fence
      ensures Valid() && Flows(given, Look()) && Told(given, Look()) && looked == old(looked) && up == old(up)
      ensures Flows(old(Look()), Look()) && Runs(old(Look()), Look()) && (stuck ==> Wedged(given, Look()))
      ensures Spared(Elements(list) + OldOf(snap, provider), Preferred(), given, Look())
      ensures good ==> !stuck && roles.disk == roles.overrides && AsSeen(snap.outage, fence.outage)
      ensures good ==> OldGone(snap, provider, Look())
      ensures good ==> Handed(given, written, Look(), provider, generation)
      ensures good && counts.stirs == old(counts).stirs ==> Apart(OldOf(snap, provider), old(instances), instances)
      ensures Moved(snap, provider, list, good, stuck, Cooperative(), |events(given.tick)|, given, looked, written,
                    Look())
    {
      hide OldGone, LeaseInv, IsCandidateOf, Setup, Numbered, Rightly, Captured, WellFiled, Aligned, Passes, Flows,
           Still, Apart, Distinct, Elements, Continued, Handed, Dated, Goes, Told, Cooperative, Concluded, Moved, Took,
           Shown, Wedged, InPeace, OnTime, AsSeen, Standing, Spared, Strangers, Fence.Valid, RoleRegistry.Valid;
      ghost var a, keys := Look(), Elements(list);
      GoesParts(keys, Preferred(), given, a);
      PassesParts(keys, Preferred(), given, a);
      AmongVisual(list, provider, snap);
      good, stuck, written := Conclude(snap, provider, generation, given, keys);
      ghost var c := Look();
      FlowsThen(given, a, c);
      ToldThen(given, a, c);
      ToldRuns(a, c);
      if stuck {
        WedgedThen(given, a, c);
      } else {
        QuietlySeen(keys + OldOf(snap, provider), Preferred(), given, c, snap.outage);
        StandingSo(keys + OldOf(snap, provider), Preferred(), given, c, provider, generation);
      }
      MovedOn(snap, provider, list, good, stuck, Cooperative(), |events(a.tick)|, |events(given.tick)|, given, looked,
              a, written, c);
      if good {
        HandedOver(keys, keys + OldOf(snap, provider), Preferred(), given, written, c, provider, generation);
      }
    }

    /** The role has changed hands: the consumers are restarted, unless the session is the same, and the migration is
        concluded. It stops at the first thing that goes wrong. */
    method MoveSession(snap: Snapshot, provider: string, generation: nat, consumers: seq<string>,
                       originals: map<string, Instance>)
      returns (good: bool, stuck: bool, attempted: seq<string>, ghost spared: set<string>, ghost written: Scene)
      requires Valid() && Preferred() == Some(provider) && Took(Look(), provider, generation)
      requires Grants(Leases()) == [Grant(provider, Holder(generation))] && provider !in fence.visual
      requires Continued(snap.outage, fence.outage) && (snap.provider.Some? ==> snap.provider.value !in fence.visual)
      requires Distinct(consumers) && forall c :: c in consumers ==> c in fence.visual
      requires forall c :: c in consumers ==> GenerationIn(originals, c) == GenerationIn(instances, c)
      modifies this, roles`tick, roles`disk, roles.registry`leases, roles.registry`roleLeases, roles.registry`nextToken,
               fence
      ensures Valid() && Flows(old(Look()), Look()) && Told(old(Look()), Look()) && Distinct(attempted)
      ensures (forall c :: c in attempted ==> c in consumers) && Flows(old(Look()), looked)
      ensures OnlyStops(Some(provider), old(tick), tick) ==> counts.stirs == old(counts).stirs
      ensures stuck ==> Wedged(old(Look()), Look())
      ensures good ==> !stuck && roles.disk == roles.overrides && AsSeen(snap.outage, fence.outage)
      ensures good ==> OldGone(snap, provider, Look())
      ensures good ==> Handed(old(Look()), written, Look(), provider, generation)
      ensures good && Invalidated(snap, provider, generation) ==>
        Renewed(consumers, spared, snap.outage, old(Look()), Look(), up)
      ensures !Invalidated(snap, provider, generation) ==> attempted == []
      ensures Moved(snap, provider, if Invalidated(snap, provider, generation) then consumers else [], good, stuck,
                    Cooperative(), |events(old(tick))|, old(Look()), looked, written, Look())
    {
      hide OldGone, LeaseInv, IsCandidateOf, Setup, Numbered, Rightly, Captured, WellFiled, Aligned, Passes, Flows,
           Still, Apart, Distinct, Elements, Restarted, Lasting, Justified, Purged, Continued, Invalidated, Favourable,
           Handed, Dated, Goes, Told, Cooperative, Moved, Took, Renewed, Wedged, InPeace, OnTime, AsSeen, Restarting,
           Standing, Spared, Strangers, OnlyStops;
      ghost var given := Look();
      good, stuck, attempted, spared, written, looked := true, false, [], {}, given, given;
      var list := if Invalidated(snap, provider, generation) then consumers else [];
      Begin(list);
      NothingYet(list, snap.outage, Cooperative(), given);
      if Invalidated(snap, provider, generation) {
        good, attempted, spared := RestartConsumers(snap.outage, consumers, originals);
        RestartingParts(consumers, good, snap.outage, attempted, spared, Cooperative(), up, given, looked, Look());
      }
      ghost var a := Look();
      Midway(list, snap, provider, generation, Preferred(), given, a);
      if !good {
        NotMoved(snap, provider, list, Cooperative(), |events(given.tick)|, given, looked, a);
        return;
      }
      StillContinues(given, a, snap.outage);
      good, stuck, written := Finish(snap, provider, generation, list, given);
      SparedAll(list, snap, provider, generation, Preferred(), given, Look());
      if good && Invalidated(snap, provider, generation) {
        RenewedSo(consumers, snap.outage, attempted, spared, Cooperative(), up, snap, provider, given, looked, a,
                  Look());
      }
    }

    /** What is known between the restarts and the end. */
    lemma Midway(list: seq<string>, snap: Snapshot, provider: string, generation: nat, preferred: Option<string>,
                 given: Scene, a: Scene)
      requires Goes(Elements(list), preferred, given, a) && Took(given, provider, generation)
      requires preferred == Some(provider) && provider !in fence.visual && forall c :: c in list ==> c in fence.visual
      requires snap.provider.Some? ==> snap.provider.value !in fence.visual
      ensures Flows(given, a) && Told(given, a) && Runs(given, a) && provider !in Elements(list)
      ensures forall k :: k in OldOf(snap, provider) ==> k !in Elements(list)
      ensures Peaceful(given, a) ==> Standing(given, a, provider)
      ensures OnlyStops(Some(provider), given.tick, a.tick) ==> a.counts.stirs == given.counts.stirs
    {
      hide Passes, Flows, Told, OnlyStops, Standing;
      AmongVisual(list, provider, snap);
      PassesParts(Elements(list), preferred, given, a);
      StandingSo(Elements(list), preferred, given, a, provider, generation);
      GoesFor(Elements(list), Elements(list) + OldOf(snap, provider), preferred, given, a);
      SparedAll(list, snap, provider, generation, preferred, given, a);
    }

    lemma SparedAll(list: seq<string>, snap: Snapshot, provider: string, generation: nat, preferred: Option<string>,
                    given: Scene, now: Scene)
      requires Spared(Elements(list) + OldOf(snap, provider), preferred, given, now) &&
        Took(given, provider, generation)
      requires preferred == Some(provider) && provider !in Elements(list)
      ensures OnlyStops(Some(provider), given.tick, now.tick) ==> now.counts.stirs == given.counts.stirs
    {
      hide OnlyStops;
      assert Providers(given.leases) == [provider];
      assert Strangers(Elements(list) + OldOf(snap, provider), preferred, given);
      assert ShowerOf(given) == Some(provider);
    }

    lemma AmongVisual(list: seq<string>, provider: string, snap: Snapshot)
      requires provider !in fence.visual && forall c :: c in list ==> c in fence.visual
      requires snap.provider.Some? ==> snap.provider.value !in fence.visual
      ensures provider !in Elements(list) && forall k :: k in OldOf(snap, provider) ==> k !in Elements(list)
    {
    }

    /** The migration proper: role, consumers, file, old provider. */
    method CarryOut(snap: Snapshot, provider: string, mode: Mode, consumers: seq<string>,
                    originals: map<string, Instance>)
      returns (good: bool, stuck: bool, attempted: seq<string>, ghost spared: set<string>, ghost given: Scene,
               ghost written: Scene)
      requires Valid() && IsCandidateOf(roles.registry.roles[DISPLAY], provider) && Ready(provider)
      requires Continued(snap.outage, fence.outage) && (snap.provider.Some? ==> snap.provider.value !in fence.visual)
      requires Flows(Look(), Look()) && provider !in fence.visual
      requires Distinct(consumers) && forall c :: c in consumers ==> c in fence.visual
      requires forall c :: c in consumers ==> GenerationIn(originals, c) == GenerationIn(instances, c)
      modifies this, roles`overrides, roles`tick, roles`disk, roles.registry, fence
      ensures Valid() && Flows(old(Look()), Look()) && Told(old(Look()), Look()) && Distinct(attempted)
      ensures (forall c :: c in attempted ==> c in consumers) && (stuck ==> !good && Wedged(old(Look()), Look()))
      ensures roles.overrides == old(roles.overrides) ||
        roles.overrides == Overridden(old(roles.overrides), ChosenBy(provider, mode))
      ensures given == old(Look()).(leases := given.leases)
      ensures good ==> roles.disk == roles.overrides == Overridden(old(roles.overrides), ChosenBy(provider, mode))
      ensures good ==> Preferred() == Some(provider) && AsSeen(snap.outage, fence.outage)
      ensures good ==> OldGone(snap, provider, Look())
      ensures good ==> Handed(given, written, Look(), provider, old(instances)[provider].generation)
      ensures good && Invalidated(snap, provider, old(instances)[provider].generation) ==>
        Renewed(consumers, spared, snap.outage, given, Look(), up)
      ensures !Invalidated(snap, provider, old(instances)[provider].generation) ==> attempted == []
      ensures if Applicable(roles.registry.roles[DISPLAY], provider, mode) then
          && Moved(snap, provider, if Invalidated(snap, provider, old(instances)[provider].generation) then consumers
                   else [],
                   good, stuck, Cooperative(), |events(old(tick))|, given, looked, written, Look())
          && (OnlyStops(Some(provider), old(tick), tick) ==> counts.stirs == old(counts).stirs)
        else !good && !stuck && attempted == []
    {
      hide OldGone, LeaseInv, IsCandidateOf, Setup, Numbered, Rightly, Captured, WellFiled, Aligned, Passes, Flows,
           Still, Dated, Distinct, Renewed, Continued, Invalidated, Favourable, Handed, AsSeen, Told, Cooperative,
           Moved, Wedged, OnlyStops;
      ghost var start := Look();
      good, stuck, attempted, spared, written := false, false, [], {}, start;
      Begin([]);
      GoesParts(Elements<string>([]), Preferred(), start, start);
      NothingYet([], snap.outage, Cooperative(), start);
      var generation := instances[provider].generation;
      good := GiveRole(provider, mode, generation);
      given := Look();
      FlowsLeases(start, start, Leases());
      if good {
        good, stuck, attempted, spared, written := MoveSession(snap, provider, generation, consumers, originals);
        FlowsLeases(given, Look(), start.leases);
        ToldFrom(start, given, Look());
        if stuck {
          WedgedLeases(start, Look(), given.leases);
        }
      }
    }

    lemma ToldFrom(start: Scene, a: Scene, b: Scene)
      requires Told(a, b) && start == a.(leases := start.leases)
      ensures Told(start, b)
    {
    }

    /** The outage that was looked at is over. */
    method CloseRecord(o: Option<Outage>, ghost start: Scene)
      requires Valid() && Flows(start, Look()) && start.outage == o && AsSeen(o, fence.outage)
      modifies fence`outage
      ensures Valid() && RecordDone(start, Look()) && Look() == old(Look()).(outage := fence.outage)
    {
      hide LeaseInv, IsCandidateOf, Setup, Numbered, Rightly, Captured, WellFiled, Aligned, Ages, Dated;
      if o.Some? {
        RevisionCountsLosses(start, Look());
        fence.Clear(o.value);
      }
    }

    /** The new provider is made ready; an outage must still be the one that was looked at. */
    method Prepare(o: Option<Outage>, provider: string) returns (ready: bool, stuck: bool, ghost begun: Scene)
      requires Valid() && o == fence.outage && provider !in fence.visual
      modifies `tick, `instances, `generations, `exited, `stopRequests, `halting, `locked, `watched, `counts, `looked,
               roles.registry`leases, roles.registry`roleLeases, roles.registry`nextToken, fence
      ensures Valid() && Told(old(Look()), Look()) && (stuck ==> !ready)
      ensures ready ==> Ready(provider) && AsSeen(o, fence.outage)
      ensures if stuck then Culprit(Preferred(), old(Look()), Look(), provider)
        else Goes({provider}, Preferred(), old(Look()), Look()) && Passes({provider}, Preferred(), begun, Look())
      ensures Prepared(o, provider, Preferred(), ready, stuck, Cooperative(), old(Look()), Look())
      ensures Prepared(o, provider, Preferred(), ready, stuck, Cooperative(), begun, Look())
      ensures Passes({}, Preferred(), old(Look()), begun) && Runs(old(Look()), begun) && Told(begun, Look())
      ensures begun.tick == old(tick) + 1
      ensures First(events(old(tick)), old(Look()), begun)
    {
      hide LeaseInv, IsCandidateOf, Setup, Numbered, Rightly, Captured, WellFiled, Aligned, Passes, Flows, Still, Dated,
           Goes, Told, Cooperative, Culprit, Readied, Heard, Prepared, AsSeen, Welcome;
      ghost var a := Look();
      ghost var path := Interfere();
      begun := Look();
      GoesParts({}, Preferred(), a, begun);
      var r: Option<Instance>;
      r, stuck := EnsureReady(provider);
      ghost var c := Look();
      ready := r.Some? && (o.Some? ==> fence.Matches(o.value));
      MatchesIsSeen(o);
      GoesParts({}, Preferred(), begun, looked);
      ToldRuns(begun, looked);
      ToldRuns(looked, c);
      ToldRuns(a, begun);
      ToldRuns(begun, c);
      ToldThen(a, begun, c);
      PreparedNow(o, provider, Preferred(), r, ready, stuck, begun, c);
      PreparedBefore(o, provider, Preferred(), r, ready, stuck, a, begun, c);
      if stuck {
        CulpritThen({}, Preferred(), a, begun, c, provider);
      } else {
        GoesFor({}, {provider}, Preferred(), a, begun);
        GoesThen({provider}, Preferred(), a, begun, c);
        GoesParts({provider}, Preferred(), begun, c);
      }
    }

    lemma PreparedNow(o: Option<Outage>, provider: string, preferred: Option<string>, r: Option<Instance>, ready: bool,
                      stuck: bool, a: Scene, b: Scene)
      requires Readied(provider, preferred, r, stuck, a, b) && (ready <==> r.Some? && AsSeen(o, b.outage))
      requires !stuck ==> Goes({provider}, preferred, a, b)
      requires Welcome(a, b, provider) && Cooperative() ==> r.Some?
      requires Peaceful(a, b) && provider in a.quarantined ==> r.None?
      ensures ready ==> IsUp(b.instances, provider) && AsSeen(o, b.outage)
      ensures Prepared(o, provider, preferred, ready, stuck, Cooperative(), a, b)
    {
      hide Flows, Seats, AsSeen, Told, Spared, Cooperative;
      if !stuck {
        QuietlySeen({provider}, preferred, a, b, o);
      }
    }

    lemma PreparedBefore(o: Option<Outage>, provider: string, preferred: Option<string>, r: Option<Instance>,
                         ready: bool, stuck: bool, a: Scene, b: Scene, c: Scene)
      requires Passes({}, preferred, a, b) && Prepared(o, provider, preferred, ready, stuck, Cooperative(), b, c)
      requires Runs(b, c) && (Peaceful(a, b) ==> b == a.(tick := b.tick))
      ensures Prepared(o, provider, preferred, ready, stuck, Cooperative(), a, c)
    {
      hide Passes, AsSeen, Cooperative;
      PassesParts({}, preferred, a, b);
      StoodBy(preferred, a, b, provider);
    }

    /** The migration is given up before the role changed hands. */
    method Abandon(snap: Snapshot, provider: string, ghost start: Scene) returns (outcome: Outcome)
      requires Valid() && Flows(start, Look()) && SnapshotOk(roles.registry.roles[DISPLAY], snap, provider)
      requires snap.leases == start.leases
      modifies `tick, `instances, `generations, `exited, `stopRequests, `halting, `locked, `watched, `counts,
               roles.registry`leases, roles.registry`roleLeases, roles.registry`nextToken, fence
      ensures Valid() && !outcome.Done? && RecordKept(start, Look(), 0) && Told(old(Look()), Look())
      ensures outcome.Stuck? ==> Doomed(snap, provider, start, Look()) && Fresh(snap, provider)
      ensures Fresh(snap, provider) && Exposing(old(Look()), provider) ==> outcome.Stuck?
      ensures outcome == Undone(0) ==> NewGone(snap, provider, Look(), Look())
      ensures Peaceful(old(Look()), Look()) && old(Leases()) == start.leases ==>
        if outcome.Stuck? then provider in old(locked) else Leases() == start.leases
    {
      hide LeaseInv, IsCandidateOf, Setup, Numbered, Rightly, Captured, WellFiled, Aligned, Passes, Flows, Still, Dated,
           Goes, Told, Cooperative, Culprit, NewRetired, RecordKept, Restorable, Doomed, Exposing, NewGone;
      ghost var a := Look();
      var ok, stuck := RetireNew(snap, provider);
      FlowsThen(start, a, Look());
      RecordFlows(start, Look());
      GivenUp(snap, roles.registry.roles[DISPLAY], provider, ok, stuck, Cooperative(), a, Look());
      if stuck {
        DoomedAtNew(snap, provider, Preferred(), start, a, Look());
      }
      outcome := if stuck then Stuck else Undone(if ok then 0 else 1);
    }

    /** Rolls back to the snapshot, with the consumers as they were found. */
    method Undo(snap: Snapshot, attempted: seq<string>, originals: map<string, Instance>, provider: string,
                ghost start: Scene, ghost so: Trace)
      returns (outcome: Outcome, ghost trace: Trace)
      requires Valid() && SnapshotOk(roles.registry.roles[DISPLAY], snap, provider) && Flows(start, Look())
      requires start.outage == snap.outage && (snap.outage.Some? ==> Recorded(snap.outage.value))
      requires Continued(snap.outage, fence.outage) && so.attempted == attempted && so.switched
      requires Distinct(attempted) && forall c :: c in attempted ==> c in fence.visual
      requires provider !in fence.visual && (snap.provider.Some? ==> snap.provider.value !in fence.visual)
      modifies this, roles`overrides, roles`tick, roles`disk, roles.registry, fence
      ensures Valid() && !outcome.Done? && trace == so.(turned := old(Look()), back := trace.back)
      ensures Told(old(Look()), Look())
      ensures outcome.Undone? ==>
        && roles.overrides == Overridden(old(roles.overrides), snap.override)
        && Reverted(snap, outcome.failures == 0, trace, start, Look(), up, fence.Budgets())
      ensures outcome == Undone(0) ==> roles.disk == roles.overrides
      ensures outcome == Undone(0) && Peaceful(trace.back, Look()) ==> NewGone(snap, provider, trace.back, Look())
      ensures outcome == Undone(0) && snap.outage.Some? && Peaceful(old(Look()), Look()) ==>
        NoReplacement(attempted, originals, instances)
      ensures outcome.Stuck? ==> Doomed(snap, provider, start, Look())
      ensures Peaceful(old(Look()), Look()) && outcome.Stuck? ==> OldDead(snap, old(Look())) || provider in old(locked)
    {
      hide LeaseInv, IsCandidateOf, Setup, Numbered, Rightly, Captured, WellFiled, Aligned, Passes, Flows, Still, Dated,
           Distinct, Continued, SnapshotOk, RecordKept, SameOutage, Recorded, Overridden, Told, Wedged, OldDead,
           RolledBack, Cooperative, Reinstated, OldAvailable, Fresh, Doomed, NewGone, NoReplacement, Reseated;
      ghost var b := Look();
      FlowsEnd(start, b);
      var failures, stuck;
      ghost var back;
      failures, stuck, back := RollBack(snap, attempted, originals, provider);
      RecordAfter(start, b, Look());
      if stuck {
        DoomedBack(snap, provider, start, b, Reinstated(snap.outage, b.outage), Look());
      }
      outcome := if stuck then Stuck else Undone(failures);
      trace := so.(turned := b, back := back);
    }

    /** Who has to be restarted, and the processes they have now. */
    method FindConsumers(o: Option<Outage>) returns (list: seq<string>, originals: map<string, Instance>)
      requires Valid()
      ensures Distinct(list) && (forall k :: k in list <==> Concerned(o, fence.visual, instances, k))
      ensures forall k :: k in list ==> k in fence.visual && GenerationIn(originals, k) == GenerationIn(instances, k)
      ensures o.Some? ==> FirstOccurrences(Visual(o.value.consumers, fence.visual)) <= list
    {
      hide Valid, Distinct, Concerned;
      list := ConsumerList(o);
      ConsumerListComplete(o);
      ConcernedAreVisual(o, fence.visual, instances, list);
      originals := map k | k in list && k in instances :: instances[k];
    }

    /** The new provider is up: the migration is carried out, or rolled back. */
    method Proceed(snap: Snapshot, provider: string, mode: Mode, ghost start: Scene)
      returns (outcome: Outcome, ghost trace: Trace)
      requires Valid() && SnapshotOk(roles.registry.roles[DISPLAY], snap, provider) && Flows(start, Look())
      requires start.outage == snap.outage && (snap.outage.Some? ==> Recorded(snap.outage.value))
      requires IsCandidateOf(roles.registry.roles[DISPLAY], provider) && Ready(provider) && provider !in fence.visual
      requires AsSeen(snap.outage, fence.outage) && (snap.provider.Some? ==> snap.provider.value !in fence.visual)
      modifies this, roles`overrides, roles`tick, roles`disk, roles.registry, fence
      ensures Valid() && Told(old(Look()), Look()) && trace.switched
      ensures trace.given == old(Look()).(leases := trace.given.leases)
      ensures forall k :: k in trace.consumers <==> Concerned(snap.outage, fence.visual, old(instances), k)
      ensures outcome.Done? ==>
        && roles.disk == roles.overrides == Overridden(old(roles.overrides), ChosenBy(provider, mode))
        && Preferred() == Some(provider) && Applicable(roles.registry.roles[DISPLAY], provider, mode)
        && Succeeded(snap, provider, old(instances)[provider].generation, trace, start, Look(), up)
      ensures outcome.Undone? ==>
        && roles.overrides == Overridden(old(roles.overrides), snap.override)
        && Reverted(snap, outcome.failures == 0, trace, start, Look(), up, fence.Budgets())
      ensures outcome == Undone(0) ==> roles.disk == roles.overrides && TidiedUp(snap, provider, trace, Look())
      ensures outcome.Stuck? ==> Doomed(snap, provider, start, Look())
      ensures Proceeded(snap, provider, Applicable(roles.registry.roles[DISPLAY], provider, mode), outcome, trace,
                        Cooperative(), |events(old(tick))|, Look())
      ensures Applicable(roles.registry.roles[DISPLAY], provider, mode) ==>
        (OnlyStops(Some(provider), old(tick), tick) ==> trace.turned.counts.stirs == old(counts).stirs)
    {
      hide TidiedUp, OldGone, LeaseInv, IsCandidateOf, Setup, Numbered, Rightly, Captured, WellFiled, Aligned, Passes,
           Flows, Still, Dated, Distinct, Renewed, Continued, Invalidated, Favourable, Handed, AsSeen, Told,
           Cooperative, Moved, Wedged, OnlyStops, SnapshotOk, Concerned, Recorded, Succeeded, Reverted, Overridden,
           Proceeded, Doomed, OldDead, RecordDone, Runs;
      ghost var a, was := Look(), roles.overrides;
      SeenContinues(start, a, snap.outage);
      FlowsEnd(start, a);
      var list, originals := FindConsumers(snap.outage);
      var good, stuck, tried;
      ghost var spared, given, written;
      good, stuck, tried, spared, given, written := CarryOut(snap, provider, mode, list, originals);
      ghost var b := Look();
      FlowsThen(start, a, b);
      ToldRuns(a, b);
      trace := Trace(true, list, tried, spared, given, looked, written, b, b);
      if good {
        outcome := Done;
        CloseRecord(snap.outage, start);
        ItSucceeded(snap, provider, a.instances[provider].generation, trace, start, b, Look(), up);
        ToldLeases(a, b, Look());
      } else if stuck {
        outcome := Stuck;
        DoomedMoving(snap, provider, if Invalidated(snap, provider, a.instances[provider].generation) then list else [],
                     Cooperative(), |events(a.tick)|, start, a, given, looked, written, b);
      } else {
        StillContinues(a, b, snap.outage);
        OverriddenTwice(was, ChosenBy(provider, mode), snap.override);
        outcome, trace := Undo(snap, tried, originals, provider, start, trace);
        Tidy(snap, provider, outcome, originals, trace, Look());
        ToldThen(a, b, Look());
        ToldRuns(b, Look());
        NoEarlier(b, Look());
      }
      ProceededSo(snap, provider, Applicable(roles.registry.roles[DISPLAY], provider, mode),
                  Invalidated(snap, provider, a.instances[provider].generation), outcome, stuck, trace, Cooperative(),
                  |events(a.tick)|, a, Look());
      OnlyStopsFirst(Some(provider), a, b, Look());
    }

    lemma Tidy(snap: Snapshot, provider: string, outcome: Outcome, originals: map<string, Instance>, trace: Trace,
               now: Scene)
      requires outcome == Undone(0) && Peaceful(trace.back, now) ==> NewGone(snap, provider, trace.back, now)
      requires outcome == Undone(0) && snap.outage.Some? && Peaceful(trace.turned, now) ==>
        NoReplacement(trace.attempted, originals, now.instances)
      requires forall c :: c in trace.attempted ==>
        GenerationIn(originals, c) == GenerationIn(trace.given.instances, c)
      ensures outcome == Undone(0) ==> TidiedUp(snap, provider, trace, now)
    {
      hide NewGone, NoReplacement;
      if outcome == Undone(0) && snap.outage.Some? && Peaceful(trace.turned, now) {
        NoReplacementOf(trace.attempted, originals, trace.given.instances, now.instances);
      }
    }

    lemma OnlyStopsFirst(key: Option<string>, a: Scene, b: Scene, c: Scene)
      requires Runs(a, b)
      ensures OnlyStops(key, a.tick, c.tick) && b.tick <= c.tick ==> OnlyStops(key, a.tick, b.tick)
    {
      if OnlyStops(key, a.tick, c.tick) && b.tick <= c.tick {
        OnlyStopsWithin(key, a.tick, b.tick, c.tick);
      }
    }

    /** The migration from a snapshot. */
    method Attempt(snap: Snapshot, provider: string, mode: Mode) returns (outcome: Outcome, ghost trace: Trace)
      requires Valid() && SnapshotOk(roles.registry.roles[DISPLAY], snap, provider)
      requires snap.outage == fence.outage && snap.leases == Leases() && snap.hadTarget == (provider in instances)
      requires snap.outage.Some? ==> Recorded(snap.outage.value)
      requires IsCandidateOf(roles.registry.roles[DISPLAY], provider) && provider !in fence.visual
      requires snap.provider.Some? ==> snap.provider.value !in fence.visual
      requires Leases() != [] ==> snap.provider == Some(Leases()[0].provider)
      requires roles.overrides == Overridden(roles.overrides, snap.override)
      modifies this, roles`overrides, roles`tick, roles`disk, roles.registry, fence
      ensures Valid() && Told(old(Look()), Look()) && Told(old(Look()), trace.given)
      ensures Ended(snap, old(Preferred()), provider, outcome, trace, old(Look()), Look(), up, fence.Budgets())
      ensures outcome.Done? ==>
        && roles.disk == roles.overrides == Overridden(old(roles.overrides), ChosenBy(provider, mode))
        && Preferred() == Some(provider) && Applicable(roles.registry.roles[DISPLAY], provider, mode)
        && forall k :: k in trace.consumers <==> Concerned(snap.outage, fence.visual, trace.given.instances, k)
      ensures outcome.Undone? ==> roles.overrides == old(roles.overrides)
      ensures outcome.Undone? && !trace.switched ==> roles.disk == old(roles.disk)
      ensures outcome == Undone(0) && trace.switched ==> roles.disk == roles.overrides
      ensures Tells(provider, old(Preferred()), Applicable(roles.registry.roles[DISPLAY], provider, mode), outcome,
                    trace, old(Look()), Look())
    {
      hide TidiedUp, NewGone, LeaseInv, IsCandidateOf, Setup, Numbered, Rightly, Captured, WellFiled, Aligned, Passes,
           Flows, Still, Dated, SnapshotOk, Succeeded, Reverted, Overridden, Concerned, Recorded, Continued, AsSeen,
           Promising, Goes, Told, Cooperative, Culprit, Prepared, Proceeded, InQuiet, UnderStops, GoesWrong, Ended,
           Doomed, RecordKept, First, Heard, Calm, OnlyStops;
      ghost var start, preferred := Look(), Preferred();
      var ready, stuck;
      ghost var begun;
      ready, stuck, begun := Prepare(snap.outage, provider);
      ghost var a := Look();
      ghost var possible := Applicable(roles.registry.roles[DISPLAY], provider, mode);
      if stuck {
        outcome, trace := Stuck, Trace(false, [], [], {}, a, a, a, a, a);
        EndedStuck(snap, preferred, provider, trace, start, a, up, fence.Budgets());
        TellsStuck(provider, preferred, possible, trace, start, begun, a);
      } else if ready {
        GoesParts({provider}, preferred, start, a);
        PassesParts({provider}, preferred, start, a);
        outcome, trace := Proceed(snap, provider, mode, start);
        ToldThen(start, a, Look());
        ToldLeases(start, a, trace.given);
        if outcome.Done? {
          SuccessFacts(snap, provider, a.instances[provider].generation, trace, start, a, Look(), up);
        }
        TellsProceeded(snap, provider, preferred, possible, outcome, trace, start, begun, a, Look());
        EndedProceeded(snap, preferred, provider, outcome, trace, start, Look(), up, fence.Budgets());
      } else {
        GoesParts({provider}, preferred, start, a);
        PassesParts({provider}, preferred, start, a);
        outcome := Abandon(snap, provider, start);
        trace := Trace(false, [], [], {}, Look(), Look(), Look(), Look(), Look());
        ToldThen(start, a, Look());
        TellsAbandoned(snap, roles.registry.roles[DISPLAY], provider, preferred, possible, outcome, trace, start,
                       begun, a, Look());
        EndedAbandoned(snap, preferred, provider, outcome, trace, start, Look(), up, fence.Budgets());
      }
    }

    /** What can be said of a migration from its input, and from what other tasks did in which of its waits. */
    ghost predicate Tells(provider: string, preferred: Option<string>, possible: bool, outcome: Outcome, trace: Trace,
                          start: Scene, now: Scene)
    {
      && InQuiet(fence.visual, provider, possible, Cooperative(), outcome, start, now)
      && UnderStops(fence.visual, provider, possible, Cooperative(), outcome, trace, |events(trace.given.tick)|, start)
      && (Calm(start.tick + 1, now.tick) ==>
            GoesWrong(fence.visual, provider, preferred, possible, Cooperative(), events(start.tick), outcome, start,
                      now))
      && (possible && OnlyStops(Some(provider), trace.given.tick, now.tick) ==>
            trace.turned.counts.stirs == trace.given.counts.stirs)
    }

    lemma TellsStuck(provider: string, preferred: Option<string>, possible: bool, trace: Trace, start: Scene,
                     begun: Scene, a: Scene)
      requires Prepared(start.outage, provider, preferred, false, true, Cooperative(), start, a)
      requires Prepared(start.outage, provider, preferred, false, true, Cooperative(), begun, a)
      requires First(events(start.tick), start, begun) && Told(begun, a) && begun.tick == start.tick + 1
      requires trace.given == trace.turned == a
      ensures Tells(provider, preferred, possible, Stuck, trace, start, a)
    {
      hide Prepared, First, InQuiet, UnderStops, GoesWrong, Cooperative, Calm, OnlyStops;
      QuietStuck(fence.visual, provider, preferred, possible, Cooperative(), start, a);
      StopsUnswitched(fence.visual, provider, possible, Cooperative(), Stuck, trace, |events(trace.given.tick)|, start,
                      a);
      if Calm(start.tick + 1, a.tick) {
        WrongStuck(fence.visual, provider, preferred, possible, Cooperative(), events(start.tick), start, begun, a);
      }
    }

    lemma TellsAbandoned(snap: Snapshot, s: RoleState, provider: string, preferred: Option<string>, possible: bool,
                         outcome: Outcome, trace: Trace, start: Scene, begun: Scene, a: Scene, now: Scene)
      requires Prepared(start.outage, provider, preferred, false, false, Cooperative(), start, a)
      requires Prepared(start.outage, provider, preferred, false, false, Cooperative(), begun, a)
      requires First(events(start.tick), start, begun) && Told(begun, a) && begun.tick == start.tick + 1 && Told(a, now)
      requires Passes({provider}, preferred, start, a) && Passes({}, preferred, start, begun)
      requires Passes({provider}, preferred, begun, a) && SnapshotOk(s, snap, provider) && snap.leases == start.leases
      requires start.leases != [] ==> snap.provider == Some(start.leases[0].provider)
      requires snap.hadTarget == (provider in start.instances) && !outcome.Done? && trace.given == trace.turned == now
      requires outcome.Stuck? ==> Fresh(snap, provider)
      requires Fresh(snap, provider) && Exposing(a, provider) ==> outcome.Stuck?
      requires Peaceful(a, now) && a.leases == start.leases ==>
        if outcome.Stuck? then provider in a.locked else now.leases == start.leases
      ensures Tells(provider, preferred, possible, outcome, trace, start, now)
      ensures outcome.Undone? && Peaceful(start, now) ==>
        (provider in Providers(start.leases) ==> start.leases[0].provider == provider) ==> now.leases == start.leases
    {
      hide Prepared, First, InQuiet, UnderStops, GoesWrong, Cooperative, Calm, OnlyStops, Passes, Restorable;
      ToldRuns(a, now);
      ToldRuns(begun, a);
      QuietAbandoned(fence.visual, snap, provider, preferred, possible, Cooperative(), outcome, start, a, now);
      StopsUnswitched(fence.visual, provider, possible, Cooperative(), outcome, trace, |events(trace.given.tick)|,
                      start, now);
      if Calm(start.tick + 1, now.tick) {
        ToldThen(begun, a, now);
        WrongAbandoned(fence.visual, snap, provider, preferred, possible, Cooperative(), events(start.tick), outcome,
                       start, begun, a, now);
      }
    }

    lemma TellsProceeded(snap: Snapshot, provider: string, preferred: Option<string>, possible: bool, outcome: Outcome,
                         trace: Trace, start: Scene, begun: Scene, a: Scene, now: Scene)
      requires Prepared(start.outage, provider, preferred, true, false, Cooperative(), start, a)
      requires Prepared(start.outage, provider, preferred, true, false, Cooperative(), begun, a)
      requires First(events(start.tick), start, begun) && Told(begun, a) && begun.tick == start.tick + 1 && Told(a, now)
      requires Passes({provider}, preferred, start, a) && Passes({}, preferred, start, begun)
      requires Passes({provider}, preferred, begun, a) && start.outage == snap.outage && provider !in fence.visual
      requires start.leases != [] ==> snap.provider == Some(start.leases[0].provider)
      requires trace.given == a.(leases := trace.given.leases) && trace.switched
      requires Proceeded(snap, provider, possible, outcome, trace, Cooperative(), |events(a.tick)|, now)
      requires forall k :: k in trace.consumers <==> Concerned(snap.outage, fence.visual, a.instances, k)
      requires outcome.Done? && start.outage.None? && a.losses > start.losses ==> now.outage.Some?
      requires possible && OnlyStops(Some(provider), a.tick, now.tick) ==> trace.turned.counts.stirs == a.counts.stirs
      ensures Tells(provider, preferred, possible, outcome, trace, start, now)
    {
      hide Prepared, First, InQuiet, UnderStops, GoesWrong, Cooperative, Calm, OnlyStops, Passes, Proceeded, Concerned;
      ToldRuns(a, now);
      ToldRuns(begun, a);
      QuietProceeded(fence.visual, snap, provider, preferred, possible, Cooperative(), outcome, trace, |events(a.tick)|,
                     start, a, now);
      StopsProceeded(fence.visual, snap, provider, preferred, possible, Cooperative(), outcome, trace, |events(a.tick)|,
                     start, a, now);
      if Calm(start.tick + 1, now.tick) {
        ToldThen(begun, a, now);
        PassesParts({}, preferred, start, begun);
        WrongProceeded(fence.visual, snap, provider, preferred, possible, Cooperative(), events(start.tick), outcome,
                       trace, |events(a.tick)|, start, begun, a, now);
      }
    }

    /** Moves the display to another provider: all or nothing, whatever happens meanwhile, if it ends.

        Success: the provider took the role and showed the display, with the same process, when the preference was
        written; before that, every consumer that is not quarantined had come up anew. The old provider is gone, unless
        it holds another role. In an outage, nothing was lost since it was looked at, and the outage is over.

        Failure: the preferences are back. If the role had changed hands, it is back, and so is the record of the
        outage.

        It may never end: it waits for itself if it comes to stop whoever shows the display, or sees its process exit,
        or needs a component that is held up by somebody who saw the display fail and waits for the migration. That
        takes a loss of the display; if no other task does anything, it is so exactly if the target shows the display
        with a process whose exit nobody has seen. */
    method Migrate(provider: string, mode: Mode) returns (outcome: Outcome, ghost trace: Trace)
      requires Valid() && HeldByProcess(provider)
      modifies this, roles`overrides, roles`tick, roles`disk, roles.registry, fence
      ensures Valid()
      ensures Ended(old(TakeSnapshot(provider)), old(Preferred()), provider, outcome, trace, old(Look()), Look(), up,
                    fence.Budgets())
      ensures !outcome.Stuck? && IsCandidateOf(roles.registry.roles[DISPLAY], provider) ==> Unawaited(Look())
      // The preferences.
      ensures outcome.Done? ==>
        && roles.disk == roles.overrides == Overridden(old(roles.overrides), ChosenBy(provider, mode))
        && Preferred() == Some(provider) && roles.Possible(DISPLAY, provider, mode)
        && forall k :: k in trace.consumers <==> Concerned(old(fence.outage), fence.visual, trace.given.instances, k)
      ensures outcome.Undone? ==> roles.overrides == old(roles.overrides) && Preferred() == old(Preferred())
      ensures outcome == Undone(0) && old(roles.disk) == old(roles.overrides) ==> roles.disk == old(roles.disk)
      // No other task does anything.
      ensures Calm(old(tick), tick) ==>
        AtPeace(fence.visual, provider, roles.Possible(DISPLAY, provider, mode), Cooperative(), outcome, old(Look()))
      // Other tasks stop the provider, after it was given the role.
      ensures Calm(old(tick), trace.given.tick) && OnlyStops(Some(provider), trace.given.tick, tick) ==>
        Stopped(provider, roles.Possible(DISPLAY, provider, mode), outcome, trace, old(Look()))
      // Other tasks do something at the first wait.
      ensures Calm(old(tick) + 1, tick) && IsCandidateOf(roles.registry.roles[DISPLAY], provider) ==>
        GoesWrong(fence.visual, provider, old(Preferred()), roles.Possible(DISPLAY, provider, mode), Cooperative(),
                  events(old(tick)), outcome, old(Look()), Look())
    {
      hide LeaseInv, IsCandidateOf, Setup, Numbered, Rightly, Captured, WellFiled, Passes, Flows, Still, SnapshotOk,
           Dated, Succeeded, Reverted, Overridden, Concerned, Recorded, Continued, RecordKept, Took, Ended, Tells, Told,
           GoesWrong, Calm, OnlyStops, Cooperative, AtPeace, Stopped, Heard, Runs, Peaceful,
           Applicable, HeldByProcess;
      ghost var start, preferred := Look(), Preferred();
      ghost var possible := roles.Possible(DISPLAY, provider, mode);
      if IsCandidateOf(roles.registry.roles[DISPLAY], provider) {
        outcome, trace := MigrateCandidate(provider, mode);
        TellsAll(provider, preferred, possible, outcome, trace, start, Look());
      } else {
        Begin([]);
        RecordFlows(start, start);
        outcome, trace := Undone(0), Trace(false, [], [], {}, start, start, start, start, start);
        NotBegun(TakeSnapshot(provider), preferred, provider, trace, start, up, fence.Budgets());
        Impossible(provider, trace, start);
      }
    }

    /** The migration to a candidate. Afterwards nobody waits for it any more. */
    method MigrateCandidate(provider: string, mode: Mode) returns (outcome: Outcome, ghost trace: Trace)
      requires Valid() && HeldByProcess(provider) && IsCandidateOf(roles.registry.roles[DISPLAY], provider)
      modifies this, roles`overrides, roles`tick, roles`disk, roles.registry, fence
      ensures Valid() && Told(old(Look()), Look()) && Told(old(Look()), trace.given)
      ensures Ended(old(TakeSnapshot(provider)), old(Preferred()), provider, outcome, trace, old(Look()), Look(), up,
                    fence.Budgets())
      ensures !outcome.Stuck? ==> Unawaited(Look())
      ensures outcome.Done? ==>
        && roles.disk == roles.overrides == Overridden(old(roles.overrides), ChosenBy(provider, mode))
        && Preferred() == Some(provider) && Applicable(roles.registry.roles[DISPLAY], provider, mode)
        && forall k :: k in trace.consumers <==> Concerned(old(fence.outage), fence.visual, trace.given.instances, k)
      ensures outcome.Undone? ==> roles.overrides == old(roles.overrides) && Preferred() == old(Preferred())
      ensures outcome == Undone(0) && old(roles.disk) == old(roles.overrides) ==> roles.disk == old(roles.disk)
      ensures Tells(provider, old(Preferred()), Applicable(roles.registry.roles[DISPLAY], provider, mode), outcome,
                    trace,
                    old(Look()), Look())
    {
      hide LeaseInv, IsCandidateOf, Setup, Numbered, Rightly, Captured, WellFiled, Passes, Flows, Still, SnapshotOk,
           Dated, Succeeded, Reverted, Overridden, Concerned, Recorded, Continued, RecordKept, Took, Ended, Tells, Told,
           Calm, OnlyStops, Cooperative, Heard, Runs, Peaceful, Applicable, HeldByProcess;
      ghost var start, preferred, snap := Look(), Preferred(), TakeSnapshot(provider);
      SnapshotFacts(provider);
      NobodyActive();
      outcome, trace := Attempt(TakeSnapshot(provider), provider, mode);
      ghost var a := Look();
      if !outcome.Stuck? {
        LetGo();
      }
      EndedReleased(snap, preferred, provider, outcome, trace, start, a, Look(), up, fence.Budgets());
      TellsReleased(provider, preferred, Applicable(roles.registry.roles[DISPLAY], provider, mode), outcome, trace,
                    start,
                    a, Look());
    }

    lemma TellsReleased(provider: string, preferred: Option<string>, possible: bool, outcome: Outcome, trace: Trace,
                        start: Scene, a: Scene, b: Scene)
      requires Tells(provider, preferred, possible, outcome, trace, start, a) && Told(start, a)
      requires b == a.(locked := b.locked, watched := b.watched)
      ensures Tells(provider, preferred, possible, outcome, trace, start, b) && Told(start, b)
    {
      hide Cooperative, Calm, OnlyStops, GoesWrong, AtPeace, UnderStops;
      WrongReleased(fence.visual, provider, preferred, possible, Cooperative(), events(start.tick), outcome, start, a,
                    b);
    }

    /** Whoever waited for the migration goes on. */
    method LetGo()
      requires Valid()
      modifies `locked, `watched
      ensures Valid() && Look() == old(Look()).(locked := {}, watched := {})
    {
      hide LeaseInv, IsCandidateOf, Setup, Numbered, Rightly, Captured, WellFiled, Aligned, Dated;
      locked, watched := {}, {};
    }

    /** How it ends if nothing is in the way and other tasks only stop the provider, after it was given the role:
        outside an outage it succeeds exactly if nothing was lost when the fence was last looked at. With nobody to
        restart it always does, however often the display was lost before the preference was written. */
    ghost predicate Stopped(provider: string, possible: bool, outcome: Outcome, trace: Trace, start: Scene) {
      start.outage.None? && possible && Unhindered(start, fence.visual, provider) && Cooperative() ==>
        && trace.switched && (outcome.Done? <==> trace.looked.losses == trace.given.losses)
        && ((forall k :: k in fence.visual ==> k !in start.instances) ==>
              outcome.Done? && trace.written.losses == trace.given.losses + |events(trace.given.tick)|)
    }

    lemma Impossible(provider: string, trace: Trace, start: Scene)
      ensures Stopped(provider, false, Undone(0), trace, start)
      ensures AtPeace(fence.visual, provider, false, Cooperative(), Undone(0), start)
    {
    }

    lemma TellsAll(provider: string, preferred: Option<string>, possible: bool, outcome: Outcome, trace: Trace,
                   start: Scene, now: Scene)
      requires Tells(provider, preferred, possible, outcome, trace, start, now)
      requires Told(start, now) && Told(start, trace.given)
      ensures Calm(start.tick, now.tick) ==>
        AtPeace(fence.visual, provider, possible, Cooperative(), outcome, start)
      ensures Calm(start.tick, trace.given.tick) && OnlyStops(Some(provider), trace.given.tick, now.tick) ==>
        Stopped(provider, possible, outcome, trace, start)
      ensures Calm(start.tick + 1, now.tick) ==>
        GoesWrong(fence.visual, provider, preferred, possible, Cooperative(), events(start.tick), outcome, start, now)
    {
      hide Cooperative, Calm, OnlyStops, GoesWrong, Unhindered, AtPeace;
    }

    // ---- Recovering the display ----

    /** Lets one consumer through, unless it is quarantined or no longer concerned. */
    method RecoverConsumer(key: string)
      requires Valid() && fence.outage.Some?
      modifies `tick, `instances, `generations, `exited, `stopRequests, `halting, `locked, `watched, `counts, `looked,
               `up, roles.registry`leases, roles.registry`roleLeases, roles.registry`nextToken, fence
      ensures Valid() && Goes({key}, Preferred(), old(Look()), Look())
      ensures Goes(fence.visual, Preferred(), old(Look()), Look())
      ensures LeftAlone(key, fence.visual, old(Look())) ==> Look() == old(Look())
      ensures !LeftAlone(key, fence.visual, old(Look())) && fence.outage.Some? ==> key !in fence.outage.value.allowed
      ensures !LeftAlone(key, fence.visual, old(Look())) && key in old(fence.outage).value.budgets ==>
        LetIn(old(fence.outage).value, key, |old(fence.admissions)|, fence.admissions)
      ensures Peaceful(old(Look()), Look()) && Cooperative() && !LeftAlone(key, fence.visual, old(Look())) ==>
        (Fitting(old(Look()), key) ==> Fitting(Look(), key) && Ready(key))
    {
      hide LeaseInv, IsCandidateOf, Setup, Numbered, Rightly, Captured, WellFiled, Aligned, Passes, Flows, Still, Dated,
           Goes, Told, Cooperative, AsFenced, LetIn, Fitting;
      ghost var a := Look();
      if key !in fence.visual || key in fence.outage.value.preexisting || key in fence.quarantined {
        Idle(fence.visual);
        GoesQuietly(fence.visual, Preferred(), a, a, false);
        Idle({key});
        GoesQuietly({key}, Preferred(), a, a, false);
        return;
      }
      ContinuesReflexive(fence.outage.value);
      var _ := StartConsumer(fence.outage, key);
      GoesFor({key}, fence.visual, Preferred(), a, Look());
    }

    /** A provider is back: the consumers are let through one by one, and the outage ends: every consumer but the
        quarantined ones was let through with its captured budget, and is up if no other task did anything and nothing
        was in the way of starting it. If the display is lost again meanwhile, or shown by another process, this
        recovery does not end the outage. */
    method Recover(provider: string) returns (cleared: bool, ghost spared: set<string>)
      requires Valid()
      modifies `tick, `instances, `generations, `exited, `stopRequests, `halting, `locked, `watched, `counts, `looked,
               `up, roles.registry`leases, roles.registry`roleLeases, roles.registry`nextToken, fence
      ensures Valid() && old(fence.admissions) <= fence.admissions && Told(old(Look()), Look())
      ensures cleared ==>
        && old(fence.outage.Some? && Ready(provider) && Owns(provider)) && fence.outage == None
        && fence.losses == old(fence.losses) && Shows(provider, old(instances)[provider].generation)
        && var o := old(fence.outage).value;
           Recovered(o, |o.consumers|, fence.visual, spared, Cooperative(), old(Look()), Look())
      ensures cleared ==> forall c :: Ready(c) && c !in old(instances) ==> RunsAnew(c, instances, old(generations))
      ensures !cleared ==> Flows(old(Look()), Look())
      ensures if old(fence.outage.Some? && Ready(provider) && Owns(provider)) then
          && (Calm(old(tick), tick) ==> cleared)
          && (OnlyStops(Some(provider), old(tick), tick) ==> (cleared <==> fence.losses == old(fence.losses)))
        else Look() == old(Look())
    {
      hide LeaseInv, IsCandidateOf, Setup, Numbered, Rightly, Captured, WellFiled, Aligned, Passes, Flows, Still, Dated,
           RecordDone, Goes, Told, Strangers, Calm, OnlyStops, Recovered, Elements, Cooperative, Recorded;
      ghost var start := Look();
      spared := {};
      NoConsumers();
      Idle(fence.visual);
      GoesQuietly(fence.visual, Preferred(), start, start, false);
      PassesParts(fence.visual, Preferred(), start, start);
      NobodyActive();
      if !Recoverable(provider) {
        return false, {};
      }
      var snapshot, generation := fence.outage.value, instances[provider].generation;
      RecordHasBudgets();
      Begin(snapshot.consumers[..0]);
      NobodyRecovered(snapshot, fence.visual, Cooperative(), start);
      for k := 0 to |snapshot.consumers|
        invariant Valid() && Goes(fence.visual, Preferred(), start, Look())
        invariant Goes(Elements(snapshot.consumers[..k]), Preferred(), start, Look())
        invariant Recovered(snapshot, k, fence.visual, spared, Cooperative(), start, Look())
      {
        ghost var a := Look();
        NobodyActive();
        Recovery(provider, Preferred(), start, a);
        if !fence.Matches(snapshot) || !Shows(provider, generation) {
          return false, spared;
        }
        RecoverConsumer(snapshot.consumers[k]);
        GoesThen(fence.visual, Preferred(), start, a, Look());
        spared := OneRecovered(snapshot, k, spared, Preferred(), start, a, Look());
      }
      NobodyActive();
      Recovery(provider, Preferred(), start, Look());
      if !fence.Matches(snapshot) || !Shows(provider, generation) {
        return false, spared;
      }
      ghost var done := Look();
      CloseRecord(Some(snapshot), start);
      RecordIsDone(start, Look());
      RecoveredStill(snapshot, fence.visual, spared, Cooperative(), start, done, Look());
      NewOnesAreNew(start, done);
      ToldLeases(start, done, Look());
      cleared := true;
    }

    lemma RecordHasBudgets()
      requires Valid() && fence.outage.Some?
      ensures Recorded(fence.outage.value)
    {
      hide LeaseInv, IsCandidateOf, Setup, Numbered, Rightly, WellFiled, Aligned, Dated, Recorded;
    }

    lemma OneRecovered(o: Outage, k: nat, spared: set<string>, preferred: Option<string>, start: Scene, a: Scene,
                       b: Scene) returns (later: set<string>)
      requires k < |o.consumers| && Recovered(o, k, fence.visual, spared, Cooperative(), start, a)
      requires start.outage == Some(o) && Recorded(o) && a.outage.Some? && a.quarantined <= a.condemned
      requires Goes(Elements(o.consumers[..k]), preferred, start, a) && Goes({o.consumers[k]}, preferred, a, b)
      requires LeftAlone(o.consumers[k], fence.visual, a) ==> b == a
      requires !LeftAlone(o.consumers[k], fence.visual, a) && o.consumers[k] in a.outage.value.budgets ==>
        LetIn(a.outage.value, o.consumers[k], |a.admissions|, b.admissions)
      requires Peaceful(a, b) && Cooperative() && !LeftAlone(o.consumers[k], fence.visual, a) ==>
        (Fitting(a, o.consumers[k]) ==> Fitting(b, o.consumers[k]) && IsUp(b.instances, o.consumers[k]))
      ensures Recovered(o, k + 1, fence.visual, later, Cooperative(), start, b)
      ensures Goes(Elements(o.consumers[..k+1]), preferred, start, b)
    {
      hide Passes, LetIn, Fitting, LeftAlone, Recovered, Recorded, Told, Cooperative, Peaceful;
      var key, skip := o.consumers[k], LeftAlone(o.consumers[k], fence.visual, a);
      later := Spares(o, k, fence.visual, skip, spared);
      OneMoreRecovered(o, k, fence.visual, spared, skip, Cooperative(), preferred, start, a, b);
      assert o.consumers[..k+1] == o.consumers[..k] + [key];
      assert Elements(o.consumers[..k]) <= Elements(o.consumers[..k+1]);
      GoesFor(Elements(o.consumers[..k]), Elements(o.consumers[..k+1]), preferred, start, a);
      GoesOn({key}, Elements(o.consumers[..k+1]), preferred, start, a, b);
    }

    /** Is there an outage, and does this component show the display with a process that is up? */
    predicate Recoverable(provider: string)
      reads this, roles, roles.registry, fence
      requires roles.Valid() && DISPLAY in roles.registry.roles
    {
      fence.outage.Some? && Ready(provider) && Owns(provider)
    }

    lemma Recovery(provider: string, preferred: Option<string>, start: Scene, now: Scene)
      requires Goes(fence.visual, preferred, start, now) && start.outage.Some? &&
        Strangers(fence.visual, preferred, start)
      requires OwnsIn(start, provider) && IsUp(start.instances, provider) && provider !in fence.visual
      ensures Flows(start, now) && Told(start, now) && now.outage.Some? && start.admissions <= now.admissions
      ensures Calm(start.tick, now.tick) || (OnlyStops(Some(provider), start.tick, now.tick) &&
                                             now.losses == start.losses) ==>
        && SameOutage(start.outage, now.outage) && now.leases == start.leases && provider in now.instances
        && now.instances[provider] == start.instances[provider]
    {
      hide Passes, Flows, SameOutage, Calm, OnlyStops, Strangers;
      Recovering(fence.visual, preferred, start, now, provider);
      PeaceLosesNothing(fence.visual, preferred, start, now);
    }
  }
}
