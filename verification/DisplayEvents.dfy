/** What other tasks may do to the display session while a task waits, and what single steps of starting and stopping a
    component come to: statements about values. */
module DisplayEvents {
  import opened RuntimePlanModel
  import opened RoleRegistryModel
  import opened DisplayFence
  import opened DisplayScene

  /** A start that succeeds; or one that fails, with a process that does not come up or with none. */
  datatype StartAnswer = Comes | DoesNotCome(spawned: bool, now: nat)

  /** A stop that succeeds, or one that raises before or after the process was removed. */
  datatype StopAnswer = Stopped | Raises(after: bool)

  /** Who notices that a process has failed: its channel, the task that watches it, or a task that wants to start it and
      holds its start lock. */
  datatype Seer = Channel | Watcher | Starter

  function StageSeen(seer: Seer): Stage {
    if seer.Channel? then Cut else Over
  }

  /** What other tasks may do meanwhile. A process fails, or exits and nobody has seen it; one comes up, or is asked
      for; a call to the display role finds a component usable, or not; a component is to be stopped, and the stop gets
      to it. */
  datatype Interference =
    | Fails(key: string, seer: Seer, now: nat, counted: bool)
    | Dies(key: string)
    | Arrives(key: string)
    | Asks(key: string)
    | Drops(key: string)
    | Stops(key: string)
    | Halts(key: string)

  // ---- What single events come to ----

  /** A process failed: its component holds nothing any more, and if it showed the display that was lost. */
  ghost predicate Failed(key: string, seer: Seer, a: Scene, b: Scene) {
    var owner := a.leases != [] && a.leases[0].provider == key;
    && b.leases == Others(a.leases, key) && Apart({key}, a.instances, b.instances) && key in b.instances
    && b.quarantined <= a.quarantined + {key} && b.stopping == a.stopping && a.watched <= b.watched
    && (forall w :: w in b.watched && w !in a.watched ==> w.0 == key)
    && (key in a.instances ==> b.exited <= a.exited + {(key, a.instances[key].generation)})
    && b.locked == (if owner && seer.Starter? then a.locked + {key} else a.locked)
    && b.losses == (if owner then a.losses + 1 else a.losses)
  }

  lemma FailedMore(key: string, seer: Seer, a: Scene, b: Scene, c: Scene)
    requires Failed(key, seer, a, b) && c == b.(quarantined := c.quarantined, condemned := c.condemned)
    requires c.quarantined <= b.quarantined + {key}
    ensures Failed(key, seer, a, c)
  {
  }

  /** What an event has changed, as far as it matters for inputs that go wrong. */
  ghost predicate Did(e: Interference, a: Scene, b: Scene) {
    match e
    case Fails(key, seer, _, _) =>
      key in a.instances && a.instances[key].stage != Over && a.instances[key].stage != Cut ==> Failed(key, seer, a, b)
    case Dies(key) =>
      key in a.instances ==>
        b == a.(exited := a.exited + {(key, a.instances[key].generation)}, counts := b.counts)
    case _ => true
  }

  /** A stop of whoever shows the display is only that; everything else counts as stirring. */
  ghost predicate Stepped(e: Interference, a: Scene, b: Scene) {
    && Did(e, a, b)
    && if e.Stops? && ShowerOf(a) == Some(e.key) then OnlyTaken(a, b, 1) && ShowerOf(b) == ShowerOf(a)
       else b.counts.stirs == a.counts.stirs + 1 && b.counts.taken == a.counts.taken
  }

  /** What the first events of a wait have come to. */
  ghost predicate Heard(es: seq<Interference>, n: nat, path: seq<Scene>, a: Scene, b: Scene)
    requires n <= |es|
  {
    && |path| == n + 1 && path[0] == a && path[n] == b
    && (forall k :: 0 <= k < n ==> Did(es[k], path[k], path[k+1]))
    && b.counts.stirs + b.counts.taken == a.counts.stirs + a.counts.taken + n
    && (StopsOnly(es, n, ShowerOf(a)) ==> OnlyTaken(a, b, n) && ShowerOf(b) == ShowerOf(a))
  }

  ghost predicate StopsOnly(es: seq<Interference>, n: nat, key: Option<string>)
    requires n <= |es|
  {
    forall k :: 0 <= k < n ==> key.Some? && es[k] == Stops(key.value)
  }

  lemma HeardNothing(es: seq<Interference>, a: Scene)
    ensures Heard(es, 0, [a], a, a)
  {
  }

  lemma HeardMore(es: seq<Interference>, n: nat, path: seq<Scene>, a: Scene, b: Scene, c: Scene)
    requires n < |es| && Heard(es, n, path, a, b) && Stepped(es[n], b, c)
    ensures Heard(es, n + 1, path + [c], a, c)
  {
    hide Did;
    if StopsOnly(es, n + 1, ShowerOf(a)) {
      assert StopsOnly(es, n, ShowerOf(a));
    }
  }

  // ---- What it comes to to start a component ----

  /** The exit of the last process was seen, and a new one spawned, or not. */
  ghost predicate Spawned(key: string, first: StartAnswer, spawned: bool, answer: StartAnswer, stuck: bool, a: Scene,
                          b: Scene)
  {
    && (stuck <==> OwnsIn(a, key) && UnseenIn(a, key)) && (stuck ==> !spawned)
    && b.counts == a.counts && b.exited == a.exited && b.watched == a.watched
    && (spawned ==> b.quarantined == a.quarantined && AliveIn(b, key))
    && (spawned && !AliveIn(a, key) ==> b.instances[key].stage == Starting)
    && (AliveIn(a, key) ==> spawned && b.instances == a.instances)
    && (!UnseenIn(a, key) || key !in Providers(a.leases) ==> b.leases == a.leases)
    && (!UnseenIn(a, key) ==> answer == first && (answer.Comes? ==> spawned))
  }

  /** A process was awaited. */
  ghost predicate Awaited(key: string, preferred: Option<string>, answer: StartAnswer, r: Option<Instance>, stuck: bool,
                          a: Scene, b: Scene)
  {
    && Gotten(key, preferred, r, stuck, b) && (stuck ==> exists w :: w in b.watched && w.0 == key)
    && b.counts.opens == a.counts.opens
    && (Peaceful(a, b) ==> if r.Some? then !Exited(b.instances, b.exited, key) else b.leases == a.leases)
    && (b.counts.stirs == a.counts.stirs ==>
          && b.quarantined == a.quarantined && b.watched == a.watched
          && (answer.Comes? && AliveIn(a, key) && a.instances[key].stage != Cut ==> r.Some?))
  }

  /** If a process is returned, it is the component's and is up. */
  ghost predicate Gotten(key: string, preferred: Option<string>, r: Option<Instance>, stuck: bool, now: Scene) {
    r.Some? ==>
      && !stuck && IsUp(now.instances, key) && now.instances[key] == r.value
      && (preferred == Some(key) ==> now.leases != [])
  }

  /** Is the display shown by a process whose exit nobody has seen, and can the component be started at all? */
  ghost predicate ExitUnseen(a: Scene, key: string) {
    OwnsIn(a, key) && UnseenIn(a, key) && key !in a.stopping && key !in a.quarantined
  }

  /** Does a task that waits for this one hold up the start of the component, or the watching of its process? */
  ghost predicate HeldUp(a: Scene, key: string) {
    key in a.locked || exists w :: w in a.watched && w.0 == key
  }

  /** A component was made ready, or not, or that never ends. */
  ghost predicate Readied(key: string, preferred: Option<string>, r: Option<Instance>, stuck: bool, a: Scene,
                          b: Scene) {
    && Gotten(key, preferred, r, stuck, b) && b.counts.opens == a.counts.opens
    && (r.Some? && b.counts.stirs == a.counts.stirs ==> b.quarantined == a.quarantined)
    && (Peaceful(a, b) ==>
          && (r.Some? ==> !Exited(b.instances, b.exited, key))
          && (r.None? && !stuck && (key !in Providers(a.leases) || !UnseenIn(a, key) || OwnsIn(a, key)) ==>
              b.leases == a.leases)
          && (stuck ==> ExitUnseen(a, key) || HeldUp(a, key))
          && (ExitUnseen(a, key) ==> stuck))
  }

  /** As far as the component goes, nothing is in the way of a start. */
  ghost predicate Startable(a: Scene, b: Scene, key: string) {
    && b.counts.stirs == a.counts.stirs && FitIn(a, key) && key !in a.stopping
    && (Peaceful(a, b) || ShowerOf(a) != Some(key))
  }

  /** Nothing but the fence is in the way of making this component ready, now. */
  ghost predicate Fitting(a: Scene, key: string) {
    key !in a.quarantined && key !in a.stopping && key !in a.locked && FitIn(a, key)
  }

  lemma VacantFits(a: Scene, key: string)
    ensures Vacant(a, key) ==> Fitting(a, key)
  {
  }

  /** Must this component wait for the display? */
  ghost predicate BlockedIn(a: Scene, visual: set<string>, key: string) {
    a.outage.Some? && key in visual && key !in a.outage.value.allowed
  }

  /** Nothing but the fence is in the way of a start. */
  ghost predicate Welcome(a: Scene, b: Scene, key: string) {
    Startable(a, b, key) && key !in a.quarantined && key !in a.locked
  }

  /** It was a wait, and then it was decided at once. */
  lemma AtOnce(key: string, preferred: Option<string>, r: Option<Instance>, stuck: bool, a: Scene, b: Scene, c: Scene)
    requires a.counts.opens == b.counts.opens
    requires Passes({}, preferred, a, b) && Gotten(key, preferred, r, stuck, c) && c == b.(leases := c.leases)
    requires r.Some? ==> AliveIn(b, key)
    requires r.None? && !stuck ==> (key in b.stopping || key in b.quarantined) && c.leases == b.leases
    requires stuck ==> key in b.locked
    ensures Readied(key, preferred, r, stuck, a, c)
    ensures Welcome(a, c, key) ==> r.Some?
  {
    hide Passes;
    StoodBy(preferred, a, b, key);
  }

  lemma Fenced(key: string, preferred: Option<string>, a: Scene, b: Scene)
    requires a.counts.opens == b.counts.opens
    requires Passes({}, preferred, a, b) && (key in b.stopping || !OwnsIn(b, key))
    ensures Readied(key, preferred, None, false, a, b)
  {
    hide Passes;
    StoodBy(preferred, a, b, key);
  }

  lemma AfterAll(key: string, preferred: Option<string>, r: Option<Instance>, stuck: bool, a: Scene, b: Scene, c: Scene)
    requires a.counts.opens == b.counts.opens
    requires Passes({}, preferred, a, b) && Runs(b, c) && Readied(key, preferred, r, stuck, b, c)
    ensures Readied(key, preferred, r, stuck, a, c)
    ensures Startable(a, c, key) ==> Startable(b, c, key) || key in b.stopping
  {
    hide Passes, Gotten;
    StoodBy(preferred, a, b, key);
    PassesParts({}, preferred, a, b);
  }

  lemma Refused(key: string, preferred: Option<string>, a: Scene, b: Scene)
    requires a.counts.opens == b.counts.opens
    requires Passes({}, preferred, a, b) && key in b.stopping
    ensures Readied(key, preferred, None, false, a, b) && !Startable(a, b, key)
  {
    StoodBy(preferred, a, b, key);
  }

  lemma NotStarted(key: string, preferred: Option<string>, first: StartAnswer, answer: StartAnswer, stuck: bool,
                   a: Scene, b: Scene, c: Scene)
    requires a.counts.opens == b.counts.opens
    requires Passes({}, preferred, a, b) && Spawned(key, first, false, answer, stuck, b, c) && key !in b.stopping
    requires stuck ==> key !in a.quarantined
    ensures Readied(key, preferred, None, stuck, a, c) && (Startable(a, c, key) ==> !first.Comes?)
  {
    hide Passes;
    StoodBy(preferred, a, b, key);
  }

  lemma WasStarted(key: string, preferred: Option<string>, first: StartAnswer, answer: StartAnswer,
                   r: Option<Instance>, stuck: bool, a: Scene, b: Scene, c: Scene, d: Scene)
    requires a.counts.opens == b.counts.opens
    requires Passes({}, preferred, a, b) && Spawned(key, first, true, answer, false, b, c)
    requires Passes({key}, preferred, b, c) && Runs(c, d) && Awaited(key, preferred, answer, r, stuck, c, d)
    ensures Readied(key, preferred, r, stuck, a, d)
    ensures Startable(a, d, key) && first.Comes? ==> r.Some?
  {
    hide Passes, Gotten;
    StoodBy(preferred, a, b, key);
    PassesParts({}, preferred, a, b);
  }

  // ---- What it comes to to stop a component ----

  /** A process was removed, if it still was the one. */
  ghost predicate Removed(key: string, generation: nat, good: bool, a: Scene, b: Scene) {
    && Peaceful(a, b) && b.quarantined == a.quarantined && b.counts.opens == a.counts.opens
    && (good ==> GenerationIn(b.instances, key) != Some(generation))
    && (good && GenerationIn(a.instances, key) == Some(generation) ==> key !in b.instances)
    && (key !in Providers(a.leases) ==> b.leases == a.leases)
  }

  /** A process was stopped, or not, or that never ends. */
  ghost predicate Halted(key: string, generation: nat, good: bool, stuck: bool, a: Scene, b: Scene) {
    && (good ==> !stuck && GenerationIn(b.instances, key) != Some(generation)) && (!stuck ==> key !in b.stopping)
    && b.counts.opens == a.counts.opens
    && (b.counts.stirs == a.counts.stirs && !stuck ==>
          && b.quarantined == a.quarantined && (key !in Providers(a.leases) ==> b.leases == a.leases)
          && (good && GenerationIn(a.instances, key) == Some(generation) ==> key !in b.instances))
    && (b.counts.stirs == a.counts.stirs && stuck ==> key in a.locked) && (key in a.locked ==> stuck)
  }

  lemma WasHalted(key: string, generation: nat, good: bool, preferred: Option<string>, start: Scene, a: Scene, b: Scene,
                  c: Scene, d: Scene, e: Scene)
    requires a.counts.opens == b.counts.opens && c.counts.opens == d.counts.opens
    requires start == a.(stopping := start.stopping) && Passes({}, preferred, a, b)
    requires Removed(key, generation, good, b, c) && Passes({}, preferred, c, d)
    requires good ==> GenerationIn(d.instances, key) != Some(generation)
    requires key !in b.locked && Runs(b, c) && e == d.(stopping := d.stopping - {key})
    ensures Halted(key, generation, good, false, start, e)
  {
    hide Passes;
    StoodBy(preferred, a, b, key);
    StoodBy(preferred, c, d, key);
    PassesParts({}, preferred, a, b);
    PassesParts({}, preferred, c, d);
  }

  lemma HeldStop(key: string, generation: nat, preferred: Option<string>, start: Scene, a: Scene, b: Scene)
    requires a.counts.opens == b.counts.opens
    requires Passes({}, preferred, a, b) && key in b.locked && start == a.(stopping := start.stopping)
    ensures Halted(key, generation, false, true, start, b)
  {
    hide Passes;
    StoodBy(preferred, a, b, key);
  }

  /** A component is being stopped for some time. */
  lemma StopWindow(key: string, preferred: Option<string>, a: Scene, d: Scene)
    requires Passes({key}, preferred, a.(stopping := a.stopping + {key}), d)
    ensures Passes({key}, preferred, a, d.(stopping := d.stopping - {key}))
    ensures ShowerOf(a.(stopping := a.stopping + {key})) == ShowerOf(a)
  {
    hide Drift;
    var a1, e := a.(stopping := a.stopping + {key}), d.(stopping := d.stopping - {key});
    assert Drift(a1, d) && Ages(a1, d);
    DriftFrom(a1, a, d);
    DriftSame(a, d, e);
    StopWindowSeats(key, preferred, a, d);
    assert Ages(a, e);
  }

  lemma StopWindowSeats(key: string, preferred: Option<string>, a: Scene, d: Scene)
    requires Seats({key}, preferred, a.(stopping := a.stopping + {key}), d)
    ensures Seats({key}, preferred, a, d.(stopping := d.stopping - {key}))
  {
    var a1, e := a.(stopping := a.stopping + {key}), d.(stopping := d.stopping - {key});
    forall l | l in e.leases ensures LentTo(preferred, a, e, l) {
      assert LentTo(preferred, a1, d, l);
    }
    forall k | k in e.locked && k !in a.locked ensures Blamed(preferred, a, e, k) {
      assert Blamed(preferred, a1, d, k);
    }
    forall w | w in e.watched && w !in a.watched ensures Blamed(preferred, a, e, w.0) {
      assert Blamed(preferred, a1, d, w.0);
    }
  }

  // ---- What it comes to to restart a consumer ----

  /** Nothing but the fence is in the way of a new process of the consumer. */
  ghost predicate Vacant(a: Scene, key: string) {
    key !in a.instances && key !in a.stopping && key !in a.quarantined && key !in a.locked
  }

  /** If nothing stirred, the consumer came up exactly if there was no outage when the fence was looked at. */
  ghost predicate AsFenced(good: bool, willing: bool, a: Scene, looked: Scene, b: Scene) {
    b.counts.stirs == a.counts.stirs && Sealed(a.outage) ==>
      (good ==> looked.outage.None?) && (willing && looked.outage.None? ==> good)
  }

  /** A consumer that is not there can be started unless it is fenced off. */
  lemma VacantStarts(key: string, preferred: Option<string>, visual: set<string>, a: Scene, looked: Scene, b: Scene)
    requires Passes({}, preferred, a, looked) && Runs(looked, b) && looked.counts.opens == a.counts.opens
    requires Vacant(a, key) && key in visual && b.counts.stirs == a.counts.stirs
    ensures Welcome(a, b, key) && key !in looked.instances
    ensures Sealed(a.outage) ==> (BlockedIn(looked, visual, key) <==> looked.outage.Some?)
  {
    hide Ages, Seats;
    assert ShowerOf(a) != Some(key);
    StoodByLeast(preferred, a, looked, key);
  }

  lemma StoodByLeast(preferred: Option<string>, a: Scene, b: Scene, key: string)
    requires Passes({}, preferred, a, b) && key !in a.instances
    ensures b.counts.stirs == a.counts.stirs ==> key !in b.instances
  {
    hide Flows, Seats;
    if b.counts.stirs == a.counts.stirs {
      ApartAt({}, a.instances, b.instances, key);
    }
  }

  /** The consumer was made ready, and somebody may have done something since. */
  lemma ConsumerCame(key: string, preferred: Option<string>, r: Option<Instance>, good: bool, b: Scene, c: Scene,
                     d: Scene)
    requires Readied(key, preferred, r, false, b, c) && Passes({}, preferred, c, d) && Runs(b, c)
    requires good <==> r.Some? && GenerationIn(d.instances, key).Some? && d.instances[key] == r.value
    ensures (good ==> IsUp(d.instances, key)) && c.counts.opens == b.counts.opens
    ensures d.counts.stirs == b.counts.stirs ==> (good <==> r.Some?) && (good ==> d.quarantined == b.quarantined)
  {
    hide Passes;
    StoodBy(preferred, c, d, key);
    PassesParts({}, preferred, c, d);
  }

  lemma ConsumerFenced(key: string, preferred: Option<string>, visual: set<string>, willing: bool, r: Option<Instance>,
                       good: bool, a: Scene, looked: Scene, c: Scene, d: Scene)
    requires Passes({}, preferred, a, looked) && Runs(looked, c) && Runs(c, d) && looked.counts.opens == a.counts.opens
    requires Vacant(a, key) && key in visual
    requires Welcome(a, c, key) && !BlockedIn(looked, visual, key) && willing ==> r.Some?
    requires !IsUp(looked.instances, key) && r.Some? ==> !BlockedIn(looked, visual, key)
    requires d.counts.stirs == a.counts.stirs ==> (good <==> r.Some?)
    ensures AsFenced(good, willing, a, looked, d)
  {
    hide Passes, Welcome, BlockedIn, Vacant;
    PassesParts({}, preferred, a, looked);
    if d.counts.stirs == a.counts.stirs {
      VacantStarts(key, preferred, visual, a, looked, c);
    }
  }

  lemma ConsumerUnfenced(key: string, preferred: Option<string>, visual: set<string>, r: Option<Instance>, good: bool,
                         b: Scene, looked: Scene, c: Scene, d: Scene)
    requires Runs(b, looked) && Runs(looked, c) && Runs(c, d) && Fitting(b, key) && !BlockedIn(b, visual, key)
    requires Peaceful(b, looked) ==> looked == b.(tick := looked.tick)
    requires Welcome(b, c, key) && !BlockedIn(looked, visual, key) ==> r.Some?
    requires Readied(key, preferred, r, false, b, c) && Passes({key}, preferred, b, c) && Passes({}, preferred, c, d)
    requires d.counts.stirs == b.counts.stirs ==> (good <==> r.Some?)
    ensures Peaceful(b, d) ==> good && Fitting(d, key)
  {
    hide Flows, Seats;
  }

  /** A consumer that other tasks may not touch is found as it was. */
  lemma FoundAsItWas(keys: set<string>, preferred: Option<string>, a: Scene, b: Scene, key: string)
    requires Passes(keys, preferred, a, b) && Strangers(keys, preferred, a) && key !in keys
    requires key !in Providers(a.leases)
    ensures b.counts.stirs == a.counts.stirs ==>
      GenerationIn(b.instances, key) == GenerationIn(a.instances, key) && (key !in a.stopping ==> key !in b.stopping)
  {
    hide Flows, Stands, Lent, Held, Strangers;
    if b.counts.stirs == a.counts.stirs {
      ApartAt(keys, a.instances, b.instances, key);
      if a.leases != [] {
        assert Providers(a.leases)[0] == a.leases[0].provider;
      }
    }
  }

  /** It was stopped, or had no process, and then it was started: exactly if there was no outage. */
  lemma FencedSince(good: bool, willing: bool, a: Scene, b: Scene, looked: Scene, c: Scene)
    requires AsFenced(good, willing, b, looked, c) && Flows(a, b) && Runs(b, c) && b.counts.opens == a.counts.opens
    ensures AsFenced(good, willing, a, looked, c)
  {
    hide Ages;
  }

  lemma NeverFenced(a: Scene, looked: Scene, c: Scene)
    ensures AsFenced(false, false, a, looked, c)
  {
  }

  // ---- What it comes to to retire a provider ----

  /** Would a stop of this provider take down the display? */
  ghost predicate Exposing(a: Scene, provider: string) {
    OwnsIn(a, provider) && provider in a.instances && provider !in a.elsewhere
  }

  /** A provider was retired, or not, or that never ends. */
  ghost predicate Retired(provider: string, ok: bool, stuck: bool, willing: bool, a: Scene, b: Scene) {
    && (ok ==> !stuck && (provider !in b.instances || provider in b.elsewhere)) && b.counts.opens == a.counts.opens
    && (Exposing(a, provider) ==> stuck)
    && (b.counts.stirs == a.counts.stirs && !stuck ==>
          (willing ==> ok) && (provider !in Providers(a.leases) ==> b.leases == a.leases))
    && (b.counts.stirs == a.counts.stirs && stuck ==> Exposing(a, provider) || provider in a.locked)
    && (provider in a.instances && provider !in a.elsewhere && provider in a.locked ==> stuck)
  }

  /** It is gone, or something stirred; so far. */
  ghost predicate Retiring(provider: string, attempts: nat, a: Scene, b: Scene) {
    && (attempts == 0 ==> b == a) && (attempts > 0 ==> !Exposing(a, provider))
    && (attempts > 0 && provider in a.instances && provider !in a.elsewhere ==> provider !in a.locked)
    && (attempts > 0 && b.counts.stirs == a.counts.stirs ==> provider !in b.instances)
    && (provider !in Providers(a.leases) && b.counts.stirs == a.counts.stirs ==> b.leases == a.leases)
    && b.counts.opens == a.counts.opens
  }

  lemma NoAttempts(provider: string, a: Scene)
    ensures Retiring(provider, 0, a, a)
  {
  }

  lemma OneMoreAttempt(provider: string, generation: nat, good: bool, stuck: bool, willing: bool, attempts: nat,
                       a: Scene, b: Scene, c: Scene)
    requires Retiring(provider, attempts, a, b) && Runs(a, b) && Runs(b, c) && !OwnsIn(b, provider)
    requires Halted(provider, generation, good, stuck, b, c) && GenerationIn(b.instances, provider) == Some(generation)
    requires willing && !stuck ==> good
    ensures if good then Retiring(provider, attempts + 1, a, c) else Retired(provider, false, stuck, willing, a, c)
    ensures good ==> !stuck
  {
  }

  lemma NoMoreAttempts(provider: string, ok: bool, willing: bool, attempts: nat, a: Scene, b: Scene)
    requires Retiring(provider, attempts, a, b) && (ok <==> provider in b.elsewhere || provider !in b.instances)
    requires ok || attempts == 3
    ensures Retired(provider, ok, false, willing, a, b)
  {
  }

  lemma StillExposed(provider: string, willing: bool, attempts: nat, a: Scene, b: Scene, c: Scene)
    requires Retiring(provider, attempts, a, b) && Exposing(b, provider) && Runs(a, b) && c.counts == b.counts
    ensures Retired(provider, false, true, willing, a, c)
  {
  }
}
