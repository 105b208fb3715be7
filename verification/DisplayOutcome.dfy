/** How a display migration can end, and what is then true of the session: statements about values. */
module DisplayOutcome {
  import opened DependencyGraph
  import opened RuntimePlanModel
  import opened PlanText
  import opened RoleRegistryModel
  import opened RoleSwitch
  import opened DisplayFence
  import opened DisplayScene
  import opened DisplayEvents

  const DISPLAY := "display-output"

  function Holder(generation: nat): Option<string> {
    Some("generation:" + Digits(generation))
  }

  /** Consumers are not candidates, and a set of components is put in some order without losing any. */
  ghost predicate Setup(s: RoleState, visual: set<string>, order: set<string> -> seq<string>) {
    && (forall c :: c in visual ==> !IsCandidateOf(s, c))
    && (forall keys :: Elements(order(keys)) == keys && Distinct(order(keys)))
  }

  ghost function Overridden(overrides: map<string, string>, choice: Option<string>): map<string, string> {
    if choice.Some? then overrides[DISPLAY := choice.value] else overrides - {DISPLAY}
  }

  ghost function ChosenBy(provider: string, mode: Mode): Option<string> {
    if mode == Select then Some(provider) else None
  }

  ghost predicate RunsAnew(key: string, instances: map<string, Instance>, generations: map<string, nat>) {
    IsUp(instances, key) && Newer(key, instances[key].generation, generations)
  }

  /** Does the migration leave this consumer alone? */
  predicate Skipped(o: Option<Outage>, quarantined: set<string>, key: string) {
    o.Some? && (key in o.value.preexisting || key in quarantined)
  }

  /** The first `n` consumers, but for those that were spared, came up as new processes. */
  ghost predicate Restarted(consumers: seq<string>, n: nat, spared: set<string>, up: map<string, Instance>,
                            generations: map<string, nat>)
    requires n <= |consumers|
  {
    forall k :: 0 <= k < n ==> consumers[k] in spared || RunsAnew(consumers[k], up, generations)
  }

  /** Of the first `n` consumers no process is left that they had then. */
  ghost predicate Purged(consumers: seq<string>, n: nat, instances: map<string, Instance>,
                         generations: map<string, nat>)
    requires n <= |consumers|
  {
    forall k :: 0 <= k < n && consumers[k] in instances ==>
      Newer(consumers[k], instances[consumers[k]].generation, generations)
  }

  lemma PurgedStill(consumers: seq<string>, n: nat, start: Scene, a: Scene, b: Scene)
    requires n <= |consumers| && Purged(consumers, n, a.instances, start.generations) && Flows(start, a) && Flows(a, b)
    ensures Purged(consumers, n, b.instances, start.generations)
  {
    hide Flows, Newer;
    forall k | 0 <= k < n && consumers[k] in b.instances
      ensures Newer(consumers[k], b.instances[consumers[k]].generation, start.generations)
    {
      StaysNew(start, a, b, consumers[k]);
    }
  }

  /** The processes that came up are still there. */
  ghost predicate Lasting(consumers: seq<string>, n: nat, spared: set<string>, up: map<string, Instance>,
                          instances: map<string, Instance>)
    requires n <= |consumers|
  {
    forall k :: 0 <= k < n && consumers[k] !in spared ==>
      consumers[k] in instances && consumers[k] in up && instances[consumers[k]] == up[consumers[k]]
  }

  /** Only quarantined consumers are spared, and only in an outage. */
  ghost predicate Justified(spared: set<string>, o: Option<Outage>, quarantined: set<string>) {
    forall c :: c in spared ==> o.Some? && (c in o.value.preexisting || c in quarantined)
  }

  /** How far the consumers have been restarted: who was tried and who spared; the first `k` came up anew, if it is good
      so far, and are still there if nothing stirred. */
  ghost predicate Restarting(consumers: seq<string>, k: nat, good: bool, o: Option<Outage>, attempted: seq<string>,
                             spared: set<string>, willing: bool, up: map<string, Instance>, start: Scene, looked: Scene,
                             now: Scene)
    requires k <= |consumers|
  {
    && Distinct(attempted) && (forall c :: c in attempted ==> c in consumers[..k]) && Flows(start, looked)
    && Justified(spared, o, now.condemned) && (o.None? ==> now.counts.opens == start.counts.opens)
    && (good ==> Restarted(consumers, k, spared, up, start.generations))
    && (good ==> Purged(consumers, k, now.instances, start.generations))
    && (good && now.counts.stirs == start.counts.stirs ==>
          && now.quarantined == start.quarantined && Justified(spared, o, start.quarantined)
          && Lasting(consumers, k, spared, up, now.instances))
    && InPeace(consumers, o, good, willing, start, now) && OnTime(consumers, o, good, willing, start, looked, now)
  }

  /** If nothing stirred since the start and nothing was in the way: outside an outage the consumer came back exactly if
      the fence was open when it was looked at, and if all was quiet it came back. */
  ghost predicate CameBack(o: Option<Outage>, key: string, skip: bool, good: bool, willing: bool, start: Scene,
                           a: Scene, looked: Scene, b: Scene)
  {
    b.counts.stirs == start.counts.stirs && !skip && key !in start.stopping && key !in a.quarantined ==>
      && (o.None? ==> AsFenced(good, willing, a, looked, b))
      && (willing && Peaceful(start, b) && (o.None? ==> a.outage.None?) ==> good)
  }

  /** One more consumer was stopped, and started unless it was to be left alone. */
  lemma OneMoreRestarted(consumers: seq<string>, k: nat, skip: bool, good: bool, o: Option<Outage>,
                         attempted: seq<string>, spared: set<string>, willing: bool, was: map<string, Instance>,
                         up: map<string, Instance>, start: Scene, before: Scene, a: Scene, looked: Scene, b: Scene)
    requires k < |consumers| && Distinct(consumers) && Flows(start, a) && Flows(start, looked) && Flows(a, b)
    requires Restarting(consumers, k, true, o, attempted, spared, willing, was, start, before, a)
    requires Runs(start, a) && Runs(a, b) && Still({consumers[k]}, a, b) && a.quarantined <= a.condemned
    requires Peaceful(start, a) ==> SameOutage(start.outage, a.outage)
    requires skip == Skipped(o, a.quarantined, consumers[k]) && (skip && willing ==> good)
    requires good && !skip ==>
      RunsAnew(consumers[k], up, start.generations) && consumers[k] in b.instances &&
      up == was[consumers[k] := b.instances[consumers[k]]]
    requires skip ==> up == was
    requires good && consumers[k] in b.instances ==>
      Newer(consumers[k], b.instances[consumers[k]].generation, start.generations)
    requires a.counts.stirs == b.counts.stirs && good ==> b.quarantined == a.quarantined
    requires o.None? ==> b.counts.opens == a.counts.opens
    requires CameBack(o, consumers[k], skip, good, willing, start, a, looked, b)
    ensures Restarting(consumers, k + 1, good, o, if skip then attempted else attempted + [consumers[k]],
                       if skip then spared + {consumers[k]} else spared, willing, up, start, looked, b)
  {
    hide Flows, Still, Distinct, Restarted, Lasting, Justified, InPeace, OnTime, AsFenced, SameOutage, Newer;
    OnceOnly(consumers, attempted, k);
    PurgedStill(consumers, k, start, a, b);
    var later := if skip then spared + {consumers[k]} else spared;
    OneSpared(spared, consumers[k], skip, o, a.condemned, a.quarantined);
    if a.counts.stirs == start.counts.stirs {
      OneSpared(spared, consumers[k], skip, o, a.condemned, start.quarantined);
    }
    StillJustified(later, o, a, b);
    OneMore(consumers, k, spared, later, was, up, a, b, start.generations, skip, good);
    OneMoreOnTime(consumers, k, o, good, willing, start, a, looked, b);
    OneMoreInPeace(consumers, k, o, skip, good, willing, start, a, b);
  }

  lemma NotBack(o: Option<Outage>, key: string, skip: bool, good: bool, willing: bool, start: Scene, a: Scene,
                looked: Scene, b: Scene)
    requires skip || (!good && !willing)
    ensures CameBack(o, key, skip, good, willing, start, a, looked, b)
  {
  }

  /** It was stopped, and found vacant if nothing stirred, and then started. */
  lemma BackAgain(o: Option<Outage>, key: string, good: bool, willing: bool, start: Scene, a: Scene, b: Scene,
                  looked: Scene, c: Scene)
    requires Runs(start, a) && Runs(a, b) && Runs(b, c)
    requires c.counts.stirs == start.counts.stirs && key !in start.stopping && key !in a.quarantined ==> Vacant(b, key)
    requires Peaceful(a, b) ==> SameOutage(a.outage, b.outage)
    requires o.None? && Vacant(b, key) ==> AsFenced(good, willing, a, looked, c)
    requires Peaceful(b, c) && Vacant(b, key) && (o.None? ==> b.outage.None?) ==> (willing ==> good)
    ensures CameBack(o, key, false, good, willing, start, a, looked, c)
  {
    hide AsFenced, Vacant;
  }

  lemma NoneRestarted(consumers: seq<string>, o: Option<Outage>, willing: bool, up: map<string, Instance>, start: Scene)
    requires Flows(start, start)
    ensures Restarting(consumers, 0, true, o, [], {}, willing, up, start, start, start)
  {
    hide Flows;
  }

  lemma RestartsEnd(consumers: seq<string>, k: nat, good: bool, o: Option<Outage>, attempted: seq<string>,
                    spared: set<string>, willing: bool, up: map<string, Instance>, start: Scene, looked: Scene,
                    now: Scene)
    requires k <= |consumers| && Restarting(consumers, k, true, o, attempted, spared, willing, up, start, looked, now)
    requires if good then k == |consumers| else
      InPeace(consumers, o, false, willing, start, now) && OnTime(consumers, o, false, willing, start, looked, now)
    ensures Restarting(consumers, |consumers|, good, o, attempted, spared, willing, up, start, looked, now)
  {
    hide Flows, InPeace, OnTime;
    assert consumers[..|consumers|] == consumers;
  }

  /** It stopped at the first that did not come up. */
  lemma RestartsFail(consumers: seq<string>, k: nat, o: Option<Outage>, attempted: seq<string>,
                     spared: set<string>, willing: bool, up: map<string, Instance>, start: Scene, looked: Scene,
                     now: Scene)
    requires k <= |consumers| && Restarting(consumers, k, false, o, attempted, spared, willing, up, start, looked, now)
    ensures Restarting(consumers, |consumers|, false, o, attempted, spared, willing, up, start, looked, now)
  {
    hide Flows, InPeace, OnTime;
    assert consumers[..|consumers|] == consumers;
  }

  /** Can all consumers be started, as far as the fence, quarantines and stops under way go? */
  ghost predicate Favourable(consumers: seq<string>, o: Option<Outage>, now: Scene) {
    && AsSeen(o, now.outage) && (o.None? ==> now.outage.None? && forall c :: c in consumers ==> c !in now.quarantined)
    && forall c :: c in consumers ==> c !in now.stopping
  }

  /** Outside an outage, and if other tasks at most stopped whoever shows the display: all consumers came up exactly if
      nothing was lost by the time the fence was looked at for the last one. */
  ghost predicate OnTime(consumers: seq<string>, o: Option<Outage>, good: bool, willing: bool, start: Scene,
                         looked: Scene, now: Scene)
  {
    o.None? && now.counts.stirs == start.counts.stirs && Favourable(consumers, o, start) ==>
      (good ==> looked.losses == start.losses) && (willing && looked.losses == start.losses ==> good)
  }

  /** If no other task did anything and nothing was in the way, all consumers came up. */
  ghost predicate InPeace(consumers: seq<string>, o: Option<Outage>, good: bool, willing: bool, start: Scene,
                          now: Scene) {
    Favourable(consumers, o, start) && Peaceful(start, now) && willing ==> good
  }

  lemma OneMoreOnTime(consumers: seq<string>, k: nat, o: Option<Outage>, good: bool, willing: bool, start: Scene,
                      a: Scene, looked: Scene, b: Scene)
    requires k < |consumers| && Flows(start, a) && Flows(start, looked) && Runs(a, b)
    requires o.None? ==> a.counts.opens == start.counts.opens
    requires a.counts.stirs == start.counts.stirs ==> a.quarantined == start.quarantined
    requires o.None? && b.counts.stirs == start.counts.stirs ==>
      (consumers[k] !in start.stopping && consumers[k] !in a.quarantined ==> AsFenced(good, willing, a, looked, b))
    ensures OnTime(consumers, o, good, willing, start, looked, b)
  {
    hide Ages;
  }

  lemma OneMoreInPeace(consumers: seq<string>, k: nat, o: Option<Outage>, skip: bool, good: bool, willing: bool,
                       start: Scene, a: Scene, b: Scene)
    requires k < |consumers| && Runs(start, a) && Runs(a, b) &&
      (Peaceful(start, a) ==> SameOutage(start.outage, a.outage))
    requires a.counts.stirs == start.counts.stirs ==> a.quarantined == start.quarantined
    requires skip == Skipped(o, a.quarantined, consumers[k]) && (skip && willing ==> good)
    requires b.counts.stirs == start.counts.stirs && !skip && consumers[k] !in start.stopping &&
             consumers[k] !in a.quarantined ==>
      (willing && Peaceful(start, b) && (o.None? ==> a.outage.None?) ==> good)
    ensures InPeace(consumers, o, good, willing, start, b)
  {
  }

  /** The outage is no longer the one that was looked at. */
  lemma NoMatch(consumers: seq<string>, o: Option<Outage>, willing: bool, start: Scene, looked: Scene, a: Scene)
    requires o.Some? && !(a.outage.Some? && a.outage.value.id == o.value.id &&
                          a.outage.value.revision == o.value.revision)
    requires Peaceful(start, a) ==> SameOutage(start.outage, a.outage)
    ensures InPeace(consumers, o, false, willing, start, a) && OnTime(consumers, o, false, willing, start, looked, a)
  {
  }

  lemma NothingYet(consumers: seq<string>, o: Option<Outage>, willing: bool, start: Scene)
    ensures InPeace(consumers, o, true, willing, start, start) &&
      OnTime(consumers, o, true, willing, start, start, start)
    ensures Distinct<string>([])
  {
  }

  ghost predicate Promising(consumers: seq<string>, o: Option<Outage>, now: Scene) {
    AsSeen(o, now.outage) && (consumers == [] || Favourable(consumers, o, now))
  }

  /** The provider shows the display with this process, which is up as far as the supervisor knows. */
  ghost predicate Shown(scene: Scene, provider: string, generation: nat) {
    && scene.leases != [] && scene.leases[0].provider == provider
    && IsUp(scene.instances, provider) && scene.instances[provider].generation == generation
  }

  /** The role was taken, and shown by the same process when the preference was written. Unless the role was called,
      that process held the role alone between, and the display was lost only to stops of its provider. And so it is
      until a later moment, unless something else happened then. */
  ghost predicate Handed(given: Scene, written: Scene, now: Scene, provider: string, generation: nat) {
    && Took(given, provider, generation) && Grants(given.leases) == [Grant(provider, Holder(generation))]
    && Shown(written, provider, generation) && Runs(given, written) && Runs(written, now)
    && (written.counts.calls == given.counts.calls ==>
          && written.leases == given.leases
          && written.losses - given.losses == written.counts.taken - given.counts.taken)
    && (Unbroken(given, now) ==> now.leases == given.leases && Took(now, provider, generation))
  }

  /** Since the role changed hands, every consumer but the quarantined ones came up as a new process, and no process
      from before is left; if no other task did anything, these processes are still there. */
  ghost predicate Renewed(consumers: seq<string>, spared: set<string>, o: Option<Outage>, given: Scene, now: Scene,
                          up: map<string, Instance>)
  {
    && Restarted(consumers, |consumers|, spared, up, given.generations) && Justified(spared, o, now.condemned)
    && Purged(consumers, |consumers|, now.instances, given.generations)
    && (now.counts.stirs == given.counts.stirs ==>
          Lasting(consumers, |consumers|, spared, up, now.instances) && Justified(spared, o, given.quarantined))
  }

  /** How a migration ends: done; undone, with so many failures on the way back; or never. */
  datatype Outcome = Done | Undone(failures: nat) | Stuck

  /** What happened in a migration: whether the role changed hands; who had to be restarted, who was tried, who spared;
      and the moments at which the role was given, the fence looked at for the last consumer, the preference written,
      the rollback begun and the role put back. */
  datatype Trace = Trace(
    switched: bool, consumers: seq<string>, attempted: seq<string>, spared: set<string>, given: Scene, looked: Scene,
    written: Scene, turned: Scene, back: Scene)

  /** The record after a success: an outage that was looked at is over and nothing was lost since; without one, there is
      a new outage exactly if the display was lost meanwhile. */
  ghost predicate RecordDone(start: Scene, now: Scene) {
    if start.outage.Some? then now.outage.None? && now.losses == start.losses
    else start.losses <= now.losses && (now.outage.Some? <==> now.losses > start.losses)
  }

  /** The losses that a rollback drops from the record: those since the outage was looked at. */
  ghost function Dropped(start: Scene, turned: Scene): nat {
    if start.outage.Some? && turned.losses >= start.losses then turned.losses - start.losses else 0
  }

  /** The record after a failure: an outage goes on, and its revision counts the losses but for those that the rollback
      dropped; without one, there is a new outage exactly if the display was lost meanwhile. */
  ghost predicate RecordKept(start: Scene, now: Scene, lost: nat) {
    && start.losses + lost <= now.losses
    && var since := now.losses - start.losses;
       if start.outage.Some? then
         && now.outage.Some? && Continues(start.outage.value, now.outage.value)
         && now.outage.value.revision + lost == start.outage.value.revision + since
         && (since == lost ==> SameOutage(start.outage, now.outage))
       else
         && lost == 0 && (now.outage.Some? <==> since > 0)
         && (now.outage.Some? ==> now.outage.value.id >= start.nextId && now.outage.value.revision == since)
  }

  /** After a clean rollback outside an outage the tried consumers came up again, and the old provider was up; both
      still are if no other task did anything since the role was put back. */
  ghost predicate BackUp(snap: Snapshot, attempted: seq<string>, back: Scene, now: Scene, up: map<string, Instance>) {
    && AllUp(attempted, |attempted|, up) && (snap.provider.Some? ==> IsUp(back.instances, snap.provider.value))
    && (Peaceful(back, now) ==>
          && Lasting(attempted, |attempted|, {}, up, now.instances)
          && (snap.provider.Some? ==> IsUp(now.instances, snap.provider.value)))
  }

  /** What a successful migration has brought about: unless it is the same session as before, the consumers were
      restarted. */
  ghost predicate Succeeded(snap: Snapshot, provider: string, generation: nat, trace: Trace, start: Scene, now: Scene,
                            up: map<string, Instance>)
  {
    && Handed(trace.given, trace.written, now, provider, generation) && RecordDone(start, now)
    && OldGone(snap, provider, now)
    && if snap.provider == Some(provider) && snap.generation == Some(generation) && snap.outage.None? then
         trace.attempted == []
       else Renewed(trace.consumers, trace.spared, snap.outage, trace.given, now, up)
  }

  /** What a rollback has brought about. */
  ghost predicate Reverted(snap: Snapshot, clean: bool, trace: Trace, start: Scene, now: Scene,
                           up: map<string, Instance>, budgets: (map<string, seq<nat>>, map<string, nat>, set<string>))
  {
    && Flows(start, trace.turned) && RecordKept(start, now, Dropped(start, trace.turned)) && Reseated(snap, trace.back)
    && Runs(trace.turned, trace.back) && RolledBack(snap, trace.attempted, clean, trace.back, now, up, budgets)
  }

  /** Does the component hold the role, or is it preferred for it? */
  ghost predicate Mine(preferred: Option<string>, scene: Scene, key: string) {
    key in Providers(scene.leases) || preferred == Some(key)
  }

  /** What it takes for a migration not to end: the display was lost meanwhile; and in an outage, unless the role was
      called, the target held the role, or was preferred, or had no process. */
  ghost predicate NoEnd(snap: Snapshot, preferred: Option<string>, provider: string, start: Scene, now: Scene) {
    && now.losses > start.losses
    && (start.outage.Some? && now.counts.calls == start.counts.calls ==>
          Mine(preferred, start, provider) || !snap.hadTarget)
  }

  /** This component's start or stop waits for a task that waits for this one, or the component shows the display. */
  ghost predicate Culprit(preferred: Option<string>, a: Scene, b: Scene, key: string) {
    Flows(a, b) && (Blamed(preferred, a, b, key) || key in a.locked || exists w :: w in a.watched && w.0 == key)
  }

  /** Nobody waits for this task yet. */
  ghost predicate Unawaited(scene: Scene) {
    scene.locked == {} && scene.watched == {}
  }

  /** The display was lost, or somebody waited for this task before. */
  ghost predicate Wedged(a: Scene, b: Scene) {
    Flows(a, b) && (Unawaited(a) ==> b.losses > a.losses)
  }

  lemma WedgedSince(preferred: Option<string>, a: Scene, b: Scene, c: Scene, key: string)
    requires Flows(a, b) && Culprit(preferred, b, c, key)
    ensures Wedged(a, c)
  {
    hide Drift, Ages;
    FlowsThen(a, b, c);
  }

  lemma CulpritFlows(preferred: Option<string>, a: Scene, b: Scene, key: string)
    requires Culprit(preferred, a, b, key)
    ensures Flows(a, b)
  {
  }

  lemma WedgedFlows(a: Scene, b: Scene)
    requires Wedged(a, b)
    ensures Flows(a, b)
  {
  }

  lemma WedgedLeases(a: Scene, b: Scene, leases: seq<Lease>)
    requires Wedged(a.(leases := leases), b)
    ensures Wedged(a, b)
  {
    hide Drift, Ages;
    FlowsLeases(a.(leases := leases), b, a.leases);
  }

  lemma WedgedThen(a: Scene, b: Scene, c: Scene)
    requires Flows(a, b) && Wedged(b, c)
    ensures Wedged(a, c)
  {
    hide Drift, Ages;
    FlowsThen(a, b, c);
  }

  lemma CulpritShows(preferred: Option<string>, a: Scene, b: Scene, key: string)
    requires Flows(a, b) && b.losses > a.losses && key in Providers(a.leases)
    ensures Culprit(preferred, a, b, key)
  {
    hide Drift, Ages;
  }

  lemma CulpritLocked(keys: set<string>, preferred: Option<string>, a: Scene, b: Scene, key: string)
    requires Passes(keys, preferred, a, b) && key in b.locked
    ensures Culprit(preferred, a, b, key)
  {
    hide Drift, Ages, Still, Stands, Lent, Blamed;
  }

  lemma CulpritWatched(keys: set<string>, preferred: Option<string>, a: Scene, b: Scene, key: string)
    requires Passes(keys, preferred, a, b) && exists w :: w in b.watched && w.0 == key
    ensures Culprit(preferred, a, b, key)
  {
    hide Drift, Ages, Still, Stands, Lent, Blamed;
  }

  lemma CulpritThen(keys: set<string>, preferred: Option<string>, a: Scene, b: Scene, c: Scene, key: string)
    requires Passes(keys, preferred, a, b) && Culprit(preferred, b, c, key)
    ensures Culprit(preferred, a, c, key)
  {
    hide Drift, Ages, Still, Stands, Lent;
    FlowsThen(a, b, c);
    StillBlamed(preferred, a, b, c);
    if Blamed(preferred, b, c, key) {
      BlamedThen(preferred, a, b, c, key);
    }
  }

  lemma CulpritAnyway(preferred: Option<string>, a: Scene, b: Scene, key: string, stopping: set<string>)
    requires Culprit(preferred, a, b, key)
    ensures Culprit(preferred, a.(stopping := stopping), b, key)
  {
    hide Drift, Ages;
    FlowsStopping(a, b, stopping);
  }

  /** How a migration that began in some scene has ended. */
  ghost predicate Ended(snap: Snapshot, preferred: Option<string>, provider: string, outcome: Outcome, trace: Trace,
                        start: Scene, now: Scene, up: map<string, Instance>,
                        budgets: (map<string, seq<nat>>, map<string, nat>, set<string>))
  {
    match outcome
    case Done =>
      && provider in trace.given.instances && Flows(start, trace.given)
      && Succeeded(snap, provider, trace.given.instances[provider].generation, trace, start, now, up)
    case Stuck => Unawaited(start) ==> NoEnd(snap, preferred, provider, start, now)
    case Undone(failures) =>
      if trace.switched then
        && Reverted(snap, failures == 0, trace, start, now, up, budgets)
        && (failures == 0 ==> TidiedUp(snap, provider, trace, now))
      else
        && RecordKept(start, now, 0) && (failures == 0 ==> NewGone(snap, provider, now, now))
        && (Peaceful(start, now) && (provider in Providers(start.leases) ==> start.leases[0].provider == provider) ==>
              now.leases == start.leases)
  }

  /** Nothing is in the way of a migration: of making the provider ready, nor of starting whoever has to be started. */
  ghost predicate Unhindered(a: Scene, visual: set<string>, provider: string) {
    && Fitting(a, provider) && Unawaited(a) && visual !! a.stopping
    && (a.outage.Some? || forall k :: k in visual && k in a.instances ==> k !in a.quarantined)
  }

  /** How a migration ends if no other task does anything: it never ends exactly if the target shows the display with a
      process whose exit nobody has seen; it fails for a quarantined target; and it succeeds if nothing is in the
      way. */
  ghost predicate AtPeace(visual: set<string>, provider: string, possible: bool, willing: bool, outcome: Outcome,
                          start: Scene)
  {
    && (possible && Unawaited(start) ==> (outcome.Stuck? <==> ExitUnseen(start, provider)))
    && (provider in start.quarantined ==> !outcome.Done?)
    && (possible && willing && Unhindered(start, visual, provider) ==> outcome.Done?)
  }

  ghost predicate InQuiet(visual: set<string>, provider: string, possible: bool, willing: bool, outcome: Outcome,
                          start: Scene, now: Scene)
  {
    Peaceful(start, now) ==> AtPeace(visual, provider, possible, willing, outcome, start)
  }

  lemma QuietStuck(visual: set<string>, provider: string, preferred: Option<string>, possible: bool, willing: bool,
                   start: Scene, now: Scene)
    requires Prepared(start.outage, provider, preferred, false, true, willing, start, now)
    ensures InQuiet(visual, provider, possible, willing, Stuck, start, now)
  {
  }

  lemma QuietAbandoned(visual: set<string>, snap: Snapshot, provider: string, preferred: Option<string>, possible: bool,
                       willing: bool, outcome: Outcome, start: Scene, a: Scene, now: Scene)
    requires Prepared(start.outage, provider, preferred, false, false, willing, start, a)
    requires Passes({provider}, preferred, start, a) && Runs(a, now) && !outcome.Done?
    requires outcome.Stuck? ==> Fresh(snap, provider) && provider !in Providers(start.leases)
    requires Peaceful(a, now) && a.leases == start.leases ==>
      if outcome.Stuck? then provider in a.locked else now.leases == start.leases
    ensures InQuiet(visual, provider, possible, willing, outcome, start, now)
    ensures outcome.Undone? && Peaceful(start, now) ==>
      (provider in Providers(start.leases) ==> start.leases[0].provider == provider) ==> now.leases == start.leases
  {
    hide Flows, Seats, AsSeen;
    PassesParts({provider}, preferred, start, a);
    AlwaysSeenSame(start.outage);
    if Peaceful(start, a) {
      LockedSame({provider}, preferred, start, a);
    }
  }

  lemma AlwaysSeenSame(o: Option<Outage>)
    ensures AsSeen(o, o)
  {
  }

  lemma LockedSame(keys: set<string>, preferred: Option<string>, a: Scene, b: Scene)
    requires Passes(keys, preferred, a, b)
    ensures Peaceful(a, b) ==> b.locked == a.locked && b.watched == a.watched
  {
    hide Flows, Seats;
  }

  lemma QuietProceeded(visual: set<string>, snap: Snapshot, provider: string, preferred: Option<string>, possible: bool,
                       willing: bool, outcome: Outcome, trace: Trace, many: nat, start: Scene, a: Scene, now: Scene)
    requires Prepared(start.outage, provider, preferred, true, false, willing, start, a)
    requires Passes({provider}, preferred, start, a) && Runs(a, now) && start.outage == snap.outage
    requires trace.given == a.(leases := trace.given.leases) && provider !in visual
    requires Proceeded(snap, provider, possible, outcome, trace, willing, many, now)
    requires forall k :: k in trace.consumers <==> Concerned(snap.outage, visual, a.instances, k)
    ensures InQuiet(visual, provider, possible, willing, outcome, start, now)
  {
    hide Passes, Promising, Concerned;
    PassesParts({provider}, preferred, start, a);
    ItIsPromising(trace.consumers, snap.outage, visual, provider, preferred, start, a);
    PromisingLeases(trace.consumers, snap.outage, a, trace.given);
    LockedSame({provider}, preferred, start, a);
  }

  lemma PromisingLeases(consumers: seq<string>, o: Option<Outage>, a: Scene, b: Scene)
    requires b == a.(leases := b.leases)
    ensures Promising(consumers, o, a) == Promising(consumers, o, b)
  {
  }

  /** How a migration outside an outage ends if nothing is in the way, no other task does anything until the role is
      given, and then other tasks at most stop the provider: it succeeds exactly if nothing was lost when the fence was
      last looked at, and so always if there was nobody to restart, whatever was lost before the preference was
      written. */
  ghost predicate UnderStops(visual: set<string>, provider: string, possible: bool, willing: bool, outcome: Outcome,
                             trace: Trace, many: nat, start: Scene)
  {
    start.outage.None? && possible && Unhindered(start, visual, provider) && Peaceful(start, trace.given) &&
    trace.turned.counts.stirs == trace.given.counts.stirs && willing ==>
      && trace.switched && (outcome.Done? <==> trace.looked.losses == trace.given.losses)
      && ((forall k :: k in visual ==> k !in start.instances) ==>
            outcome.Done? && trace.written.losses == trace.given.losses + many)
  }

  lemma StopsUnswitched(visual: set<string>, provider: string, possible: bool, willing: bool, outcome: Outcome,
                        trace: Trace, many: nat, start: Scene, now: Scene)
    requires InQuiet(visual, provider, possible, willing, outcome, start, now) && !outcome.Done? && trace.given == now
    ensures UnderStops(visual, provider, possible, willing, outcome, trace, many, start)
  {
  }

  lemma StopsProceeded(visual: set<string>, snap: Snapshot, provider: string, preferred: Option<string>, possible: bool,
                       willing: bool, outcome: Outcome, trace: Trace, many: nat, start: Scene, a: Scene, now: Scene)
    requires Prepared(start.outage, provider, preferred, true, false, willing, start, a) && trace.switched
    requires Passes({provider}, preferred, start, a) && start.outage == snap.outage
    requires trace.given == a.(leases := trace.given.leases) && provider !in visual
    requires Proceeded(snap, provider, possible, outcome, trace, willing, many, now)
    requires forall k :: k in trace.consumers <==> Concerned(snap.outage, visual, a.instances, k)
    ensures UnderStops(visual, provider, possible, willing, outcome, trace, many, start)
  {
    hide Passes, Promising;
    PassesParts({provider}, preferred, start, a);
    ItIsPromising(trace.consumers, snap.outage, visual, provider, preferred, start, a);
    PromisingLeases(trace.consumers, snap.outage, a, trace.given);
    LockedSame({provider}, preferred, start, a);
    if Peaceful(start, a) && start.outage.None? && forall k :: k in visual ==> k !in start.instances {
      NobodyNew(visual, provider, start.instances, a.instances);
      assert trace.consumers == [] || trace.consumers[0] in trace.consumers;
    }
  }

  lemma NobodyNew(visual: set<string>, provider: string, a: map<string, Instance>, b: map<string, Instance>)
    requires Apart({provider}, a, b) && provider !in visual && forall k :: k in visual ==> k !in a
    ensures forall k :: k in visual ==> k !in b
  {
  }

  // ---- Inputs for which it goes wrong ----

  /** At the first wait the process exits that shows the display, and nobody sees it. */
  ghost predicate DiesAtOnce(es: seq<Interference>, start: Scene, provider: string) {
    && es == [Dies(provider)] && OwnsIn(start, provider) && AliveIn(start, provider)
    && provider !in start.stopping && provider !in start.quarantined
  }

  /** At the first wait another provider fails that shows the display, and nobody else holds the role. */
  ghost predicate LosesAtOnce(es: seq<Interference>, start: Scene, provider: string) {
    && |es| == 1 && es[0].Fails? && |start.leases| == 1 && start.leases[0].provider == es[0].key
    && IsUp(start.instances, es[0].key) && es[0].key != provider
    && provider !in start.stopping && provider !in start.quarantined
  }

  /** The provider is preferred, has no process and holds no role. */
  ghost predicate Exposed(start: Scene, preferred: Option<string>, provider: string) {
    preferred == Some(provider) && provider !in start.instances && provider !in start.elsewhere
  }

  /** The provider is up, and nobody runs on the session. */
  ghost predicate Alone(start: Scene, visual: set<string>, provider: string) {
    && IsUp(start.instances, provider) && AliveIn(start, provider) && start.outage.None?
    && forall k :: k in visual ==> k !in start.instances
  }

  /** What these inputs come to, if nothing happens after the first wait. A process that exits unseen while it shows the
      display: the migration never ends. The display is lost in an outage, and the preferred provider comes to show it:
      it never ends. The display is lost outside an outage, with nobody to restart: if that was seen by a task that
      starts the old provider, it never ends; otherwise it succeeds, and leaves an outage. */
  ghost predicate GoesWrong(visual: set<string>, provider: string, preferred: Option<string>, possible: bool,
                            willing: bool, es: seq<Interference>, outcome: Outcome, start: Scene, now: Scene)
  {
    && (DiesAtOnce(es, start, provider) ==> outcome.Stuck?)
    && (LosesAtOnce(es, start, provider) && willing && Unawaited(start) ==>
          && (start.outage.Some? && Exposed(start, preferred, provider) ==> outcome.Stuck?)
          && (possible && Alone(start, visual, provider) && es[0].key !in start.elsewhere ==>
                if es[0].seer.Starter? then outcome.Stuck? else outcome.Done? && now.outage.Some?))
  }

  /** The first wait, as far as it matters here: `a` is the moment at which it begins, but for the time. */
  ghost predicate First(es: seq<Interference>, a: Scene, begun: Scene) {
    exists path :: Heard(es, |es|, path, a.(tick := begun.tick), begun)
  }

  lemma DiedAtOnce(es: seq<Interference>, start: Scene, begun: Scene, provider: string)
    requires First(es, start, begun) && DiesAtOnce(es, start, provider)
    ensures ExitUnseen(begun, provider)
  {
    var path :| Heard(es, |es|, path, start.(tick := begun.tick), begun);
    assert Did(es[0], path[0], path[1]);
  }

  lemma LostAtOnce(es: seq<Interference>, start: Scene, begun: Scene, provider: string)
    requires First(es, start, begun) && LosesAtOnce(es, start, provider) && Unawaited(start)
    ensures begun.leases == [] && begun.losses == start.losses + 1 && !HeldUp(begun, provider)
    ensures Apart({es[0].key}, start.instances, begun.instances) && es[0].key in begun.instances
    ensures provider !in begun.quarantined && provider !in begun.stopping
    ensures es[0].key in begun.locked <==> es[0].seer.Starter?
    ensures AliveIn(start, provider) ==> AliveIn(begun, provider)
  {
    var path :| Heard(es, |es|, path, start.(tick := begun.tick), begun);
    assert Did(es[0], path[0], path[1]);
    OthersFacts(start.leases, es[0].key);
    assert Others(start.leases, es[0].key) == [];
  }

  lemma WrongStuck(visual: set<string>, provider: string, preferred: Option<string>, possible: bool, willing: bool,
                   es: seq<Interference>, start: Scene, begun: Scene, now: Scene)
    requires First(es, start, begun) && Peaceful(begun, now)
    requires Prepared(start.outage, provider, preferred, false, true, willing, begun, now)
    ensures GoesWrong(visual, provider, preferred, possible, willing, es, Stuck, start, now)
  {
    hide First;
    if LosesAtOnce(es, start, provider) && Unawaited(start) {
      LostAtOnce(es, start, begun, provider);
    }
  }

  lemma WrongAbandoned(visual: set<string>, snap: Snapshot, provider: string, preferred: Option<string>, possible: bool,
                       willing: bool, es: seq<Interference>, outcome: Outcome, start: Scene, begun: Scene, a: Scene,
                       now: Scene)
    requires First(es, start, begun) && Runs(begun, a) && Runs(a, now) && Peaceful(begun, now)
    requires Passes({}, preferred, start, begun) && Passes({provider}, preferred, begun, a)
    requires Prepared(start.outage, provider, preferred, false, false, willing, begun, a)
    requires start.leases != [] ==> snap.provider == Some(start.leases[0].provider)
    requires snap.hadTarget == (provider in start.instances)
    requires Fresh(snap, provider) && Exposing(a, provider) ==> outcome.Stuck?
    ensures GoesWrong(visual, provider, preferred, possible, willing, es, outcome, start, now)
  {
    hide First, Ages, Stands, Held, Still;
    if DiesAtOnce(es, start, provider) {
      DiedAtOnce(es, start, begun, provider);
    }
    if LosesAtOnce(es, start, provider) && willing && Unawaited(start) {
      LostAtOnce(es, start, begun, provider);
      AlwaysSeen(begun.outage);
      if Exposed(start, preferred, provider) && start.outage.Some? {
        TakesItAll(preferred, begun, a, provider);
        CallsSame({provider}, preferred, begun, a);
      }
    }
  }

  lemma CallsSame(keys: set<string>, preferred: Option<string>, a: Scene, b: Scene)
    requires Passes(keys, preferred, a, b)
    ensures Peaceful(a, b) ==> b.counts.calls == a.counts.calls
  {
    hide Flows, Seats;
  }

  /** Where nobody held the role, whoever holds it now is the preferred provider. */
  lemma TakesItAll(preferred: Option<string>, a: Scene, b: Scene, provider: string)
    requires Lent(preferred, a, b) && a.leases == [] && preferred == Some(provider)
    ensures b.counts.calls == a.counts.calls && b.leases != [] ==> OwnsIn(b, provider)
  {
    if b.leases != [] {
      assert LentTo(preferred, a, b, b.leases[0]);
    }
  }

  lemma WrongProceeded(visual: set<string>, snap: Snapshot, provider: string, preferred: Option<string>, possible: bool,
                       willing: bool, es: seq<Interference>, outcome: Outcome, trace: Trace, many: nat, start: Scene,
                       begun: Scene, a: Scene, now: Scene)
    requires First(es, start, begun) && Runs(begun, a) && Runs(a, now) && Peaceful(begun, now)
    requires Flows(start, begun) && Passes({provider}, preferred, begun, a) && start.outage == snap.outage
    requires Prepared(start.outage, provider, preferred, true, false, willing, begun, a) && provider !in visual
    requires start.leases != [] ==> snap.provider == Some(start.leases[0].provider)
    requires trace.given == a.(leases := trace.given.leases)
    requires Proceeded(snap, provider, possible, outcome, trace, willing, many, now)
    requires forall k :: k in trace.consumers <==> Concerned(snap.outage, visual, a.instances, k)
    requires outcome.Done? && start.outage.None? && a.losses > start.losses ==> now.outage.Some?
    ensures GoesWrong(visual, provider, preferred, possible, willing, es, outcome, start, now)
  {
    hide First, Ages, Seats, Promising;
    if DiesAtOnce(es, start, provider) {
      DiedAtOnce(es, start, begun, provider);
    }
    if LosesAtOnce(es, start, provider) && willing && Unawaited(start) {
      LostAtOnce(es, start, begun, provider);
      PassesParts({provider}, preferred, begun, a);
      if start.outage.Some? {
        FlowsThen(start, begun, a);
        RevisionCountsLosses(start, a);
      } else if Alone(start, visual, provider) {
        LonelyStill(visual, provider, es[0].key, start.instances, begun.instances, a.instances);
        assert trace.consumers == [] || trace.consumers[0] in trace.consumers;
        PromisingNobody(trace.given);
        LockedSame({provider}, preferred, begun, a);
        Unlocked(start, begun);
      }
    }
  }

  lemma PromisingNobody(a: Scene)
    ensures Promising([], None, a)
  {
  }

  lemma LonelyStill(visual: set<string>, provider: string, owner: string, a: map<string, Instance>,
                    b: map<string, Instance>, c: map<string, Instance>)
    requires Apart({owner}, a, b) && Apart({provider}, b, c) && owner in a && provider !in visual && provider != owner
    requires owner in b && forall k :: k in visual ==> k !in a
    ensures (forall k :: k in visual ==> k !in c) && owner in c
  {
  }

  /** A migration that was stuck at making the provider ready. */
  lemma EndedStuck(snap: Snapshot, preferred: Option<string>, provider: string, trace: Trace, start: Scene, now: Scene,
                   up: map<string, Instance>, budgets: (map<string, seq<nat>>, map<string, nat>, set<string>))
    requires Culprit(preferred, start, now, provider)
    ensures Ended(snap, preferred, provider, Stuck, trace, start, now, up, budgets)
  {
    hide Drift, Ages;
    if Unawaited(start) {
      assert Blamed(preferred, start, now, provider);
    }
  }

  lemma EndedAbandoned(snap: Snapshot, preferred: Option<string>, provider: string, outcome: Outcome, trace: Trace,
                       start: Scene, now: Scene, up: map<string, Instance>,
                       budgets: (map<string, seq<nat>>, map<string, nat>, set<string>))
    requires outcome.Stuck? ==> Doomed(snap, provider, start, now) && snap.outage == start.outage
    requires !outcome.Done? && !trace.switched && RecordKept(start, now, 0)
    requires outcome == Undone(0) ==> NewGone(snap, provider, now, now)
    requires outcome.Undone? && Peaceful(start, now) ==>
      (provider in Providers(start.leases) ==> start.leases[0].provider == provider) ==> now.leases == start.leases
    ensures Ended(snap, preferred, provider, outcome, trace, start, now, up, budgets)
  {
    hide RecordKept;
  }

  lemma EndedProceeded(snap: Snapshot, preferred: Option<string>, provider: string, outcome: Outcome, trace: Trace,
                       start: Scene, now: Scene, up: map<string, Instance>,
                       budgets: (map<string, seq<nat>>, map<string, nat>, set<string>))
    requires outcome.Stuck? ==> Doomed(snap, provider, start, now) && snap.outage == start.outage
    requires outcome.Done? ==>
      && provider in trace.given.instances && Flows(start, trace.given)
      && Succeeded(snap, provider, trace.given.instances[provider].generation, trace, start, now, up)
    requires outcome.Undone? ==> Reverted(snap, outcome.failures == 0, trace, start, now, up, budgets)
    requires trace.switched && (outcome == Undone(0) ==> TidiedUp(snap, provider, trace, now))
    ensures Ended(snap, preferred, provider, outcome, trace, start, now, up, budgets)
  {
    hide Reverted, Succeeded, Flows;
  }

  /** When a migration has ended, nobody waits for it any more. */
  lemma EndedReleased(snap: Snapshot, preferred: Option<string>, provider: string, outcome: Outcome, trace: Trace,
                      start: Scene, a: Scene, b: Scene, up: map<string, Instance>,
                      budgets: (map<string, seq<nat>>, map<string, nat>, set<string>))
    requires Ended(snap, preferred, provider, outcome, trace, start, a, up, budgets)
    requires b == a.(locked := b.locked, watched := b.watched)
    ensures Ended(snap, preferred, provider, outcome, trace, start, b, up, budgets)
  {
    hide Flows, Lasting, AllUp, Restarted, Justified, DownAgain, Purged;
  }

  lemma WrongReleased(visual: set<string>, provider: string, preferred: Option<string>, possible: bool, willing: bool,
                      es: seq<Interference>, outcome: Outcome, start: Scene, a: Scene, b: Scene)
    requires b == a.(locked := b.locked, watched := b.watched)
    ensures GoesWrong(visual, provider, preferred, possible, willing, es, outcome, start, a) ==>
      GoesWrong(visual, provider, preferred, possible, willing, es, outcome, start, b)
  {
  }

  lemma NotBegun(snap: Snapshot, preferred: Option<string>, provider: string, trace: Trace, start: Scene,
                 up: map<string, Instance>, budgets: (map<string, seq<nat>>, map<string, nat>, set<string>))
    requires RecordKept(start, start, 0) && !trace.switched && NewGone(snap, provider, start, start)
    ensures Ended(snap, preferred, provider, Undone(0), trace, start, start, up, budgets)
  {
    hide RecordKept;
  }

  lemma SuccessFacts(snap: Snapshot, provider: string, generation: nat, trace: Trace, start: Scene, a: Scene,
                     now: Scene, up: map<string, Instance>)
    requires Succeeded(snap, provider, generation, trace, start, now, up) && Flows(start, a)
    requires trace.given == a.(leases := trace.given.leases)
    ensures provider in trace.given.instances && trace.given.instances[provider].generation == generation
    ensures start.outage.None? && a.losses > start.losses ==> now.outage.Some?
    ensures Flows(start, trace.given)
  {
    hide Ages, Renewed;
    FlowsLeases(start, a, trace.given.leases);
  }

  lemma ItIsPromising(consumers: seq<string>, o: Option<Outage>, visual: set<string>, provider: string,
                      preferred: Option<string>, a: Scene, b: Scene)
    requires Passes({provider}, preferred, a, b) && a.outage == o && provider !in visual
    requires forall k :: k in consumers <==> Concerned(o, visual, b.instances, k)
    ensures (o.Some? || forall k :: k in visual && k in a.instances ==> k !in a.quarantined) && visual !! a.stopping ==>
      (Peaceful(a, b) && b.quarantined == a.quarantined ==> Promising(consumers, o, b))
    ensures o.None? && (forall k :: k in visual ==> k !in b.instances) ==> Promising(consumers, o, b)
  {
    hide Ages, Seats;
    assert consumers == [] || consumers[0] in consumers;
  }

  lemma ItSucceeded(snap: Snapshot, provider: string, generation: nat, trace: Trace, start: Scene, a: Scene, b: Scene,
                    up: map<string, Instance>)
    requires Handed(trace.given, trace.written, a, provider, generation) && RecordDone(start, b)
    requires OldGone(snap, provider, a) && b == a.(outage := b.outage)
    requires if Invalidated(snap, provider, generation) then
        Renewed(trace.consumers, trace.spared, snap.outage, trace.given, a, up)
      else trace.attempted == []
    ensures Succeeded(snap, provider, generation, trace, start, b, up)
  {
    hide Restarted, Lasting, Justified, RecordDone;
  }

  lemma RecordAfter(start: Scene, b: Scene, now: Scene)
    requires Flows(start, b) && Flows(b.(outage := Reinstated(start.outage, b.outage)), now)
    ensures RecordKept(start, now, Dropped(start, b))
  {
    hide Ages;
  }

  lemma RecordFlows(start: Scene, now: Scene)
    requires Flows(start, now)
    ensures RecordKept(start, now, 0)
  {
    hide Ages;
  }

  lemma SeenContinues(start: Scene, a: Scene, o: Option<Outage>)
    requires Flows(start, a) && start.outage == o
    ensures Continued(o, a.outage)
  {
    hide Ages;
  }

  lemma OverriddenTwice(overrides: map<string, string>, first: Option<string>, second: Option<string>)
    ensures Overridden(Overridden(overrides, first), second) == Overridden(overrides, second)
  {
  }

  lemma ConcernedAreVisual(o: Option<Outage>, visual: set<string>, instances: map<string, Instance>, keys: seq<string>)
    requires forall k :: k in keys <==> Concerned(o, visual, instances, k)
    ensures forall k :: k in keys ==> k in visual
  {
  }

  /** What a recovery can rely on at any moment. */
  lemma Recovering(visual: set<string>, preferred: Option<string>, a: Scene, b: Scene, provider: string)
    requires Passes(visual, preferred, a, b) && a.outage.Some? && Strangers(visual, preferred, a)
    requires a.leases != [] && a.leases[0].provider == provider && provider !in visual && IsUp(a.instances, provider)
    ensures Flows(a, b) && Runs(a, b) && b.outage.Some? && a.admissions <= b.admissions
    ensures ShowerOf(a) == Some(provider)
    ensures b.counts.stirs == a.counts.stirs && b.losses == a.losses ==>
      && SameOutage(a.outage, b.outage) && b.leases == a.leases && provider in b.instances
      && b.instances[provider] == a.instances[provider]
  {
    hide Ages, Stands, Lent, Held, Strangers;
    if b.counts.stirs == a.counts.stirs {
      ApartAt(visual, a.instances, b.instances, provider);
    }
  }

  lemma RecordIsDone(start: Scene, now: Scene)
    requires RecordDone(start, now) && start.outage.Some?
    ensures now.outage == None && now.losses == start.losses
  {
  }

  lemma HandedOver(keys: set<string>, more: set<string>, preferred: Option<string>, given: Scene, written: Scene,
                   now: Scene, provider: string, generation: nat)
    requires Took(given, provider, generation) && Grants(given.leases) == [Grant(provider, Holder(generation))]
    requires Shown(written, provider, generation)
    requires Passes(keys, preferred, given, written) && Passes(more, preferred, given, now) && Flows(written, now)
    ensures Handed(given, written, now, provider, generation)
  {
    hide Ages, Drift, Seats, Still;
    StillShown(keys, preferred, given, written, provider);
    NotLost(more, preferred, given, now, provider);
  }

  lemma LastingAfter(consumers: seq<string>, spared: set<string>, up: map<string, Instance>, snap: Snapshot,
                     provider: string, a: Scene, b: Scene)
    requires forall c :: c in OldOf(snap, provider) ==> c !in Elements(consumers)
    requires a.counts.stirs == b.counts.stirs ==> Apart(OldOf(snap, provider), a.instances, b.instances)
    ensures a.counts.stirs == b.counts.stirs && Lasting(consumers, |consumers|, spared, up, a.instances) ==>
      Lasting(consumers, |consumers|, spared, up, b.instances)
  {
    forall k | 0 <= k < |consumers| ensures consumers[k] !in OldOf(snap, provider) {
      assert consumers[k] in Elements(consumers);
    }
  }

  lemma OnceOnly(consumers: seq<string>, attempted: seq<string>, k: nat)
    requires Distinct(consumers) && k < |consumers| && Distinct(attempted)
    requires forall c :: c in attempted ==> c in consumers[..k]
    ensures Distinct(attempted + [consumers[k]])
    ensures forall c :: c in attempted + [consumers[k]] ==> c in consumers[..k+1]
    ensures forall c :: c in attempted ==> c in consumers[..k+1]
    ensures consumers[..|consumers|] == consumers && consumers[k] in Elements(consumers)
  {
    forall i | 0 <= i < |attempted| ensures attempted[i] != consumers[k] {
      assert attempted[i] in consumers[..k];
    }
    assert consumers[..k+1] == consumers[..k] + [consumers[k]];
  }

  lemma OneSpared(spared: set<string>, key: string, skip: bool, o: Option<Outage>, condemned: set<string>,
                  quarantined: set<string>)
    requires Justified(spared, o, condemned) && quarantined <= condemned && skip == Skipped(o, quarantined, key)
    ensures skip ==> Justified(spared + {key}, o, condemned)
    ensures skip && Justified(spared, o, quarantined) ==> Justified(spared + {key}, o, quarantined)
  {
  }

  lemma StillJustified(spared: set<string>, o: Option<Outage>, a: Scene, b: Scene)
    requires Justified(spared, o, a.condemned) && Flows(a, b)
    ensures Justified(spared, o, b.condemned)
  {
    hide Drift, Ages;
  }

  lemma OneMore(consumers: seq<string>, k: nat, before: set<string>, spared: set<string>, was: map<string, Instance>,
                up: map<string, Instance>, a: Scene, b: Scene, generations: map<string, nat>, skip: bool, good: bool)
    requires k < |consumers| && Distinct(consumers) && Restarted(consumers, k, before, was, generations)
    requires spared == if skip then before + {consumers[k]} else before
    requires Still({consumers[k]}, a, b)
    requires good && !skip ==>
      RunsAnew(consumers[k], up, generations) && consumers[k] in b.instances &&
      up == was[consumers[k] := b.instances[consumers[k]]]
    requires skip ==> up == was
    ensures good ==> Restarted(consumers, k + 1, spared, up, generations)
    ensures good && a.counts.stirs == b.counts.stirs && Lasting(consumers, k, before, was, a.instances) ==>
      Lasting(consumers, k + 1, spared, up, b.instances)
  {
    forall j | good && 0 <= j < k + 1 ensures consumers[j] in spared || RunsAnew(consumers[j], up, generations) {
      assert j < k ==> consumers[j] in before || RunsAnew(consumers[j], was, generations);
    }
  }

  ghost predicate AllUp(keys: seq<string>, n: nat, up: map<string, Instance>)
    requires n <= |keys|
  {
    forall k :: 0 <= k < n ==> IsUp(up, keys[k])
  }

  /** Consumers that had the process of the beginning still have it. */
  ghost predicate OriginalsStay(keys: seq<string>, originals: map<string, Instance>, before: map<string, Instance>,
                                now: map<string, Instance>) {
    forall c :: c in keys && c in before && GenerationIn(originals, c) == Some(before[c].generation) ==>
      c in now && now[c] == before[c]
  }

  lemma OriginalsThere(keys: seq<string>, originals: map<string, Instance>, now: map<string, Instance>)
    ensures OriginalsStay(keys, originals, now, now)
  {
  }

  lemma OriginalsLeft(keys: seq<string>, key: string, originals: map<string, Instance>, before: map<string, Instance>,
                      a: map<string, Instance>, b: map<string, Instance>)
    requires OriginalsStay(keys, originals, before, a) && Apart({key}, a, b)
    requires b == a || (key in a && GenerationIn(originals, key) != Some(a[key].generation))
    ensures OriginalsStay(keys, originals, before, b)
  {
  }

  lemma OneLessReplacement(keys: seq<string>, k: nat, before: map<string, Instance>, a: Scene, b: Scene)
    requires k < |keys| && NoReplacement(keys[k+1..], before, a.instances)
    requires Apart({keys[k]}, a.instances, b.instances)
    requires keys[k] in b.instances ==> GenerationIn(before, keys[k]) == Some(b.instances[keys[k]].generation)
    ensures NoReplacement(keys[k..], before, b.instances)
  {
    assert keys[k..] == [keys[k]] + keys[k+1..];
  }

  lemma NoReplacementYet(keys: seq<string>, before: map<string, Instance>, now: map<string, Instance>)
    ensures NoReplacement(keys[|keys|..], before, now) && keys[0..] == keys
  {
  }

  /** What holds of consumers is not touched by what is done to a provider. */
  lemma NoReplacementApart(keys: seq<string>, before: map<string, Instance>, provider: string, visual: set<string>,
                           a: map<string, Instance>, b: map<string, Instance>)
    requires NoReplacement(keys, before, a) && Apart({provider}, a, b) && provider !in visual
    requires forall c :: c in keys ==> c in visual
    ensures NoReplacement(keys, before, b)
  {
  }

  lemma NoReplacementOf(keys: seq<string>, originals: map<string, Instance>, given: map<string, Instance>,
                        now: map<string, Instance>)
    requires NoReplacement(keys, originals, now)
    requires forall c :: c in keys ==> GenerationIn(originals, c) == GenerationIn(given, c)
    ensures NoReplacement(keys, given, now)
  {
  }

  /** How far the consumers have been brought back: unless there were failures the first `k` came up, and are still
      there if nothing stirred. */
  ghost predicate Returning(keys: seq<string>, k: nat, failures: nat, willing: bool, up: map<string, Instance>,
                            start: Scene, now: Scene)
    requires k <= |keys|
  {
    && (failures == 0 ==> AllUp(keys, k, up)) && (k == 0 ==> failures == 0)
    && (failures == 0 && now.counts.stirs == start.counts.stirs ==>
          Lasting(keys, k, {}, up, now.instances) && now.quarantined == start.quarantined)
    && InPeace(keys, None, failures == 0, willing, start, now)
  }

  lemma NoneReturned(keys: seq<string>, willing: bool, up: map<string, Instance>, start: Scene)
    ensures Returning(keys, 0, 0, willing, up, start, start)
  {
  }

  lemma OneMoreReturned(keys: seq<string>, k: nat, failures: nat, good: bool, willing: bool,
                        was: map<string, Instance>, up: map<string, Instance>, start: Scene, a: Scene, b: Scene)
    requires k < |keys| && Distinct(keys) && Returning(keys, k, failures, willing, was, start, a)
    requires Runs(start, a) && Runs(a, b) && Still({keys[k]}, a, b)
    requires Peaceful(start, a) ==> SameOutage(start.outage, a.outage)
    requires good ==> IsUp(b.instances, keys[k]) && up == was[keys[k] := b.instances[keys[k]]]
    requires good && b.counts.stirs == a.counts.stirs ==> b.quarantined == a.quarantined
    requires a.counts.stirs == start.counts.stirs && keys[k] !in start.stopping ==> keys[k] !in a.stopping
    requires Peaceful(a, b) && keys[k] !in a.quarantined && keys[k] !in a.stopping && a.outage.None? && willing ==> good
    ensures Returning(keys, k + 1, if good then failures else failures + 1, willing, up, start, b)
  {
    hide Still, Lasting, AllUp;
    if good && failures == 0 {
      OneMoreBack(keys, k, was, up, a, b);
    }
  }

  lemma OneMoreBack(keys: seq<string>, k: nat, was: map<string, Instance>, up: map<string, Instance>, a: Scene,
                    b: Scene)
    requires k < |keys| && Distinct(keys) && AllUp(keys, k, was) && Still({keys[k]}, a, b)
    requires IsUp(b.instances, keys[k]) && up == was[keys[k] := b.instances[keys[k]]]
    ensures AllUp(keys, k + 1, up)
    ensures a.counts.stirs == b.counts.stirs && Lasting(keys, k, {}, was, a.instances) ==>
      Lasting(keys, k + 1, {}, up, b.instances)
  {
  }

  lemma Prefix(consumers: seq<string>, k: nat)
    requires Distinct(consumers) && k < |consumers|
    ensures Elements(consumers[..k+1]) == Elements(consumers[..k]) + {consumers[k]}
    ensures consumers[k] !in Elements(consumers[..k]) && Elements(consumers[..k]) <= Elements(consumers)
    ensures Elements(consumers[..k+1]) <= Elements(consumers) && consumers[k] in Elements(consumers)
  {
    assert consumers[..k+1] == consumers[..k] + [consumers[k]];
    forall i | 0 <= i < k ensures consumers[..k][i] != consumers[k] {
    }
  }

  lemma AmongThem(keys: seq<string>, k: nat)
    requires k < |keys|
    ensures {keys[k]} <= Elements(keys)
  {
  }

  /** The consumer has the captured budget, and no quarantine of its own from the outage. */
  ghost predicate DownAgain(o: Outage, key: string, budgets: (map<string, seq<nat>>, map<string, nat>, set<string>)) {
    && Budget(HistoryOf(budgets.0, key), BackoffOf(budgets.1, key)) == BaselineIn(o, key)
    && (key !in o.preexisting ==> key !in budgets.2)
  }

  /** The old provider has not to be started, or can be. */
  ghost predicate OldAvailable(snap: Snapshot, visual: set<string>, a: Scene) {
    snap.provider.Some? && snap.outage.None? ==>
      var former := snap.provider.value;
      && former !in visual && former !in a.quarantined && former !in a.stopping && former !in a.locked &&
         FitIn(a, former)
  }

  /** Does the old provider show the display with a process whose exit nobody has seen, or do tasks that wait for this
      one hold it up? */
  ghost predicate OldDead(snap: Snapshot, a: Scene) {
    && snap.outage.None? && snap.provider.Some?
    && ((OwnsIn(a, snap.provider.value) && UnseenIn(a, snap.provider.value)) || HeldUp(a, snap.provider.value))
  }

  /** What matters for making the old provider ready is not touched by handling consumers, if all is quiet. */
  lemma OldUntouched(keys: set<string>, visual: set<string>, preferred: Option<string>, snap: Snapshot, a: Scene,
                     b: Scene)
    requires Passes(keys, preferred, a, b) && Strangers(keys, preferred, a) && keys <= visual
    requires snap.provider.Some? ==> snap.provider.value !in visual
    requires b.counts.stirs == a.counts.stirs ==> b.quarantined == a.quarantined
    ensures Peaceful(a, b) ==> (OldDead(snap, b) ==> OldDead(snap, a))
    ensures Peaceful(a, b) ==> (OldAvailable(snap, visual, a) ==> OldAvailable(snap, visual, b))
  {
    hide Flows, Stands, Lent, Held, Strangers;
    if Peaceful(a, b) && snap.provider.Some? {
      ApartAt(keys, a.instances, b.instances, snap.provider.value);
    }
  }

  /** Is this provider another than the old one, and without a process when the migration began? */
  ghost predicate Fresh(snap: Snapshot, provider: string) {
    snap.provider != Some(provider) && !snap.hadTarget
  }

  /** A provider that was started for the migration has no process any more, or held another role at the moment `a`. */
  ghost predicate NewGone(snap: Snapshot, provider: string, a: Scene, now: Scene) {
    Fresh(snap, provider) ==> provider !in now.instances || provider in a.elsewhere
  }

  /** No consumer has another process than it had then. */
  ghost predicate NoReplacement(keys: seq<string>, before: map<string, Instance>, now: map<string, Instance>) {
    forall c :: c in keys && c in now ==> GenerationIn(before, c) == Some(now[c].generation)
  }

  /** After a clean rollback the provider that was started for it is gone, and so are, in an outage, the processes
      that replaced consumers, as far as no other task did anything. */
  ghost predicate TidiedUp(snap: Snapshot, provider: string, trace: Trace, now: Scene) {
    && (Peaceful(trace.back, now) ==> NewGone(snap, provider, trace.back, now))
    && (snap.outage.Some? && Peaceful(trace.turned, now) ==>
          NoReplacement(trace.attempted, trace.given.instances, now.instances))
  }

  /** What it comes to to take down a provider that was started for the migration: it may not end if the provider shows
      the display. In peace everything else stays as it is. */
  ghost predicate NewRetired(snap: Snapshot, provider: string, ok: bool, stuck: bool, willing: bool, a: Scene,
                             b: Scene) {
    && (stuck ==> !ok && Fresh(snap, provider)) && (Fresh(snap, provider) && Exposing(a, provider) ==> stuck)
    && (ok ==> NewGone(snap, provider, b, b)) && (!stuck ==> b.elsewhere <= a.elsewhere)
    && (Peaceful(a, b) ==>
          && (!stuck ==> Apart({provider}, a.instances, b.instances))
          && (stuck ==> Exposing(a, provider) || provider in a.locked) && (willing && !stuck ==> ok)
          && (!stuck && (!Fresh(snap, provider) || provider !in Providers(a.leases)) ==>
                && b.leases == a.leases && SameOutage(a.outage, b.outage)
                && (snap.provider.Some? && IsUp(a.instances, snap.provider.value) ==>
                      IsUp(b.instances, snap.provider.value))))
  }

  lemma NewWasRetired(snap: Snapshot, provider: string, ok: bool, stuck: bool, willing: bool, a: Scene, b: Scene)
    requires Retired(provider, ok, stuck, willing, a, b) && Fresh(snap, provider) && Flows(a, b)
    requires !stuck ==> Still({provider}, a, b)
    ensures NewRetired(snap, provider, ok, stuck, willing, a, b)
  {
    hide Flows, SameOutage;
    Unlocked(a, b);
    if !stuck {
      QuietFacts({provider}, a, b, snap.provider);
    }
  }

  lemma NewWasLeft(snap: Snapshot, provider: string, willing: bool, a: Scene)
    requires !Fresh(snap, provider) || provider in a.elsewhere
    ensures NewRetired(snap, provider, true, false, willing, a, a)
  {
  }

  /** What the second half of a rollback has brought about, from a moment at which the role was back. */
  ghost predicate Settled(snap: Snapshot, provider: string, attempted: seq<string>, failures: nat, stuck: bool,
                          willing: bool, a: Scene, b: Scene, up: map<string, Instance>,
                          budgets: (map<string, seq<nat>>, map<string, nat>, set<string>))
  {
    && (stuck ==> Fresh(snap, provider) && (Peaceful(a, b) ==> provider in a.locked))
    && (!stuck && failures == 0 && snap.outage.None? ==> AllUp(attempted, |attempted|, up))
    && (!stuck && Peaceful(a, b) ==>
          && (failures == 0 ==> NewGone(snap, provider, a, b))
          && (snap.outage.Some? ==> Apart({provider}, a.instances, b.instances))
          && b.leases == a.leases && SameOutage(a.outage, b.outage) && (willing && attempted == [] ==> failures == 0)
          && (snap.outage.Some? ==> forall c :: c in attempted ==> DownAgain(snap.outage.value, c, budgets))
          && (failures == 0 && snap.outage.None? ==>
                && Lasting(attempted, |attempted|, {}, up, b.instances)
                && (snap.provider.Some? && IsUp(a.instances, snap.provider.value) ==>
                      IsUp(b.instances, snap.provider.value))))
  }

  lemma SettledNever(snap: Snapshot, provider: string, attempted: seq<string>, willing: bool, a: Scene, b: Scene,
                     up: map<string, Instance>, budgets: (map<string, seq<nat>>, map<string, nat>, set<string>))
    requires NewRetired(snap, provider, false, true, willing, a, b)
    requires Fresh(snap, provider) ==> !OwnsIn(a, provider)
    ensures Settled(snap, provider, attempted, 1, true, willing, a, b, up, budgets)
  {
    hide SameOutage;
  }

  lemma SettledDown(snap: Snapshot, provider: string, attempted: seq<string>, ok: bool, willing: bool, a: Scene,
                    b: Scene, c: Scene, up: map<string, Instance>,
                    budgets: (map<string, seq<nat>>, map<string, nat>, set<string>))
    requires NewRetired(snap, provider, ok, false, willing, a, b) && Runs(a, b) && Runs(b, c) && snap.outage.Some?
    requires Fresh(snap, provider) ==> provider !in Providers(a.leases)
    requires Peaceful(b, c) ==>
      && c.leases == b.leases && c.outage == b.outage && c.instances == b.instances
      && forall k :: k in attempted ==> DownAgain(snap.outage.value, k, budgets)
    ensures Settled(snap, provider, attempted, if ok then 0 else 1, false, willing, a, c, up, budgets)
  {
    hide DownAgain;
  }

  lemma SettledBack(snap: Snapshot, provider: string, attempted: seq<string>, ok: bool, more: nat, willing: bool,
                    visual: set<string>, preferred: Option<string>, a: Scene, b: Scene, c: Scene,
                    up: map<string, Instance>, budgets: (map<string, seq<nat>>, map<string, nat>, set<string>))
    requires NewRetired(snap, provider, ok, false, willing, a, b) && Runs(a, b) && snap.outage.None?
    requires Fresh(snap, provider) ==> provider !in Providers(a.leases)
    requires Returning(attempted, |attempted|, more, willing, up, b, c) && Flows(a, b)
    requires Passes(Elements(attempted), preferred, b, c) && Strangers(visual, preferred, b)
    requires forall k :: k in attempted ==> k in visual
    requires provider !in visual && (snap.provider.Some? ==> snap.provider.value !in visual)
    ensures Settled(snap, provider, attempted, more + if ok then 0 else 1, false, willing, a, c, up, budgets)
    ensures Flows(a, c)
  {
    hide Passes, Flows, Lasting, AllUp, InPeace, Strangers, SameOutage;
    PassesParts(Elements(attempted), preferred, b, c);
    StrangersFewer(Elements(attempted), visual, preferred, b);
    QuietSession(Elements(attempted), preferred, a, b, c, snap.provider);
    StillGone(Elements(attempted), preferred, b, c, provider);
  }

  lemma StillGone(keys: set<string>, preferred: Option<string>, a: Scene, b: Scene, key: string)
    requires Passes(keys, preferred, a, b) && key !in keys
    ensures Peaceful(a, b) && key !in a.instances ==> key !in b.instances
  {
    hide Flows, Seats;
  }

  lemma StrangersFewer(few: set<string>, many: set<string>, preferred: Option<string>, a: Scene)
    requires Strangers(many, preferred, a) && few <= many
    ensures Strangers(few, preferred, a)
  {
  }

  /** The role was back at some moment, and then the rest. */
  ghost predicate RolledBack(snap: Snapshot, attempted: seq<string>, clean: bool, back: Scene, now: Scene,
                             up: map<string, Instance>, budgets: (map<string, seq<nat>>, map<string, nat>, set<string>))
  {
    && SeatBack(snap, back.leases) && Runs(back, now)
    && (Peaceful(back, now) ==>
          && now.leases == back.leases
          && (snap.outage.Some? ==> forall c :: c in attempted ==> DownAgain(snap.outage.value, c, budgets)))
    && (clean && snap.outage.None? ==> BackUp(snap, attempted, back, now, up))
  }

  lemma SettledSo(snap: Snapshot, provider: string, attempted: seq<string>, before: nat, failures: nat, willing: bool,
                  back: Scene, now: Scene, up: map<string, Instance>,
                  budgets: (map<string, seq<nat>>, map<string, nat>, set<string>))
    requires Settled(snap, provider, attempted, failures, false, willing, back, now, up, budgets) && Runs(back, now)
    requires SeatBack(snap, back.leases)
    requires before == 0 && snap.outage.None? && snap.provider.Some? ==> IsUp(back.instances, snap.provider.value)
    ensures RolledBack(snap, attempted, before + failures == 0, back, now, up, budgets)
    ensures Peaceful(back, now) && willing && attempted == [] ==> failures == 0
    ensures Peaceful(back, now) && failures == 0 ==> NewGone(snap, provider, back, now)
    ensures Peaceful(back, now) && snap.outage.Some? ==> Apart({provider}, back.instances, now.instances)
  {
    hide AllUp, Lasting, DownAgain, SeatBack, SameOutage;
  }

  lemma SettledStuck(snap: Snapshot, provider: string, attempted: seq<string>, failures: nat, willing: bool,
                     back: Scene, now: Scene, up: map<string, Instance>,
                     budgets: (map<string, seq<nat>>, map<string, nat>, set<string>))
    requires Settled(snap, provider, attempted, failures, true, willing, back, now, up, budgets)
    ensures Fresh(snap, provider) && (Peaceful(back, now) ==> provider in back.locked)
  {
  }

  /** In peace nobody comes to wait for this task. */
  lemma LockedBefore(a: Scene, b: Scene, key: string)
    requires Flows(a, b)
    ensures Peaceful(a, b) && b.losses == a.losses && key in b.locked ==> key in a.locked
  {
    hide Drift, Ages;
  }

  lemma PeaceLosesNothing(keys: set<string>, preferred: Option<string>, a: Scene, b: Scene)
    requires Passes(keys, preferred, a, b)
    ensures Flows(a, b) && (Peaceful(a, b) ==> b.losses == a.losses)
  {
    hide Flows, Seats;
  }

  lemma OldElsewhere(snap: Snapshot, visual: set<string>, a: Scene, b: Scene)
    requires b == a.(outage := b.outage)
    ensures OldDead(snap, a) == OldDead(snap, b) && OldAvailable(snap, visual, a) == OldAvailable(snap, visual, b)
  {
  }

  function Visual(keys: seq<string>, visual: set<string>): (r: seq<string>)
    ensures forall k :: k in r <==> k in keys && k in visual
  {
    if keys == [] then []
    else (if keys[0] in visual then [keys[0]] else []) + Visual(keys[1..], visual)
  }

  /** Has this component to be restarted on a new display? */
  ghost predicate Concerned(o: Option<Outage>, visual: set<string>, instances: map<string, Instance>, key: string) {
    && key in visual
    && ((key in instances && instances[key].stage != Over) || (o.Some? && key in o.value.consumers))
  }

  /** Is it another visual session than before? */
  predicate Invalidated(snap: Snapshot, provider: string, generation: nat) {
    snap.provider != Some(provider) || snap.generation != Some(generation) || snap.outage.Some?
  }

  /** The old provider, if it is another. */
  ghost function OldOf(snap: Snapshot, provider: string): set<string> {
    if snap.provider.Some? && snap.provider.value != provider then {snap.provider.value} else {}
  }

  /** The provider holds the role alone, with this process, which is up. */
  ghost predicate Took(scene: Scene, provider: string, generation: nat) {
    && |scene.leases| == 1 && scene.leases[0].provider == provider
    && IsUp(scene.instances, provider) && scene.instances[provider].generation == generation
  }

  /** The outage, if one was seen, is unchanged. */
  ghost predicate AsSeen(o: Option<Outage>, now: Option<Outage>) {
    o.Some? ==> now.Some? && now.value.id == o.value.id && now.value.revision == o.value.revision
  }

  /** While nobody else does anything but stop it, the provider goes on showing the display. */
  lemma StandsWhenQuiet(keys: set<string>, preferred: Option<string>, a: Scene, b: Scene, provider: string)
    requires Passes(keys, preferred, a, b) && a.leases != [] && a.leases[0].provider == provider
    requires provider !in keys && IsUp(a.instances, provider)
    ensures a.counts.stirs == b.counts.stirs ==>
      && b.leases != [] && b.leases[0] == a.leases[0]
      && provider in b.instances && b.instances[provider] == a.instances[provider]
  {
    hide Flows, Lent, Held;
    if a.counts.stirs == b.counts.stirs {
      ApartAt(keys, a.instances, b.instances, provider);
    }
  }

  /** The preference was written, or not: exactly if the outage still is the one that was looked at, as far as nothing
      stirred. What was lost at the wait before it was lost to stops of the provider, of which there were so many. */
  ghost predicate Confirmed(o: Option<Outage>, provider: string, generation: nat, good: bool, willing: bool, many: nat,
                            given: Scene, a: Scene, b: Scene)
  {
    && (good ==> Shown(b, provider, generation) && AsSeen(o, b.outage))
    && (b.counts.stirs == given.counts.stirs && willing ==> (good <==> AsSeen(o, b.outage)))
    && (b.counts.stirs == given.counts.stirs && good ==> b.losses == a.losses + many)
  }

  lemma WasConfirmed(o: Option<Outage>, provider: string, generation: nat, written: bool, good: bool, willing: bool,
                     many: nat, keys: set<string>, preferred: Option<string>, given: Scene, a: Scene, b: Scene)
    requires Passes(keys, preferred, given, b) && Passes({}, preferred, a, b) && Runs(given, a)
    requires Took(given, provider, generation) && provider !in keys && Shown(b, provider, generation)
    requires b.counts.stirs + b.counts.taken == a.counts.stirs + a.counts.taken + many
    requires (willing ==> written) && (good <==> written && AsSeen(o, b.outage))
    ensures Confirmed(o, provider, generation, good, willing, many, given, a, b)
  {
    hide Flows, Seats;
    PassesParts({}, preferred, a, b);
  }

  lemma NotConfirmed(o: Option<Outage>, provider: string, generation: nat, willing: bool, many: nat, keys: set<string>,
                     preferred: Option<string>, given: Scene, a: Scene, b: Scene)
    requires Passes(keys, preferred, given, b) && Took(given, provider, generation) && provider !in keys
    requires b.leases != [] && b.leases[0].provider == provider && provider in b.instances ==>
      b.instances[provider].generation != generation
    ensures Confirmed(o, provider, generation, false, willing, many, given, a, b)
  {
    hide Passes;
    StandsWhenQuiet(keys, preferred, given, b, provider);
  }

  /** A process that still shows the display is still up. */
  lemma ShownStill(keys: set<string>, preferred: Option<string>, given: Scene, b: Scene, provider: string,
                   generation: nat)
    requires Passes(keys, preferred, given, b) && Took(given, provider, generation)
    requires OwnsIn(b, provider) && GenerationIn(b.instances, provider) == Some(generation)
    ensures Shown(b, provider, generation)
  {
    hide Passes;
    StillShown(keys, preferred, given, b, provider);
  }

  /** What it comes to to retire the old provider: that may not end if tasks which wait for this one hold it up. */
  ghost predicate OldRetired(snap: Snapshot, provider: string, good: bool, stuck: bool, willing: bool, a: Scene,
                             b: Scene)
  {
    && (stuck ==> !good && Displaced(snap, provider)) && (good ==> OldGone(snap, provider, b))
    && (b.counts.stirs == a.counts.stirs ==>
          (stuck ==> snap.provider.value in a.locked) && (willing && !stuck ==> good))
    && (OldHeldUp(snap, provider, a) ==> stuck)
  }

  /** Has the old provider a process and no other role, and do tasks that wait for this one hold it up? */
  ghost predicate OldHeldUp(snap: Snapshot, provider: string, a: Scene) {
    && Displaced(snap, provider) && snap.provider.value in a.instances && snap.provider.value !in a.elsewhere
    && snap.provider.value in a.locked
  }

  /** The old provider, if it is another, has no process, or holds another role. */
  ghost predicate OldGone(snap: Snapshot, provider: string, now: Scene) {
    Displaced(snap, provider) ==> snap.provider.value !in now.instances || snap.provider.value in now.elsewhere
  }

  /** Is there an old provider, and another than this one? */
  ghost predicate Displaced(snap: Snapshot, provider: string) {
    snap.provider.Some? && snap.provider.value != provider
  }

  lemma OldWasRetired(snap: Snapshot, provider: string, ok: bool, stuck: bool, willing: bool, a: Scene, b: Scene)
    requires Displaced(snap, provider) && Retired(snap.provider.value, ok, stuck, willing, a, b)
    requires OwnsIn(a, provider)
    ensures OldRetired(snap, provider, ok, stuck, willing, a, b)
  {
  }

  lemma OldWasLeft(snap: Snapshot, provider: string, willing: bool, a: Scene)
    requires Displaced(snap, provider) ==> snap.provider.value in a.elsewhere
    ensures OldRetired(snap, provider, true, false, willing, a, a)
  {
  }

  /** The end of a migration that has restarted all consumers. */
  ghost predicate Concluded(snap: Snapshot, provider: string, good: bool, stuck: bool, willing: bool, many: nat,
                            given: Scene, a: Scene, written: Scene, now: Scene)
  {
    && (stuck ==>
          && !good && Displaced(snap, provider)
          && (HeldUp(given, snap.provider.value) || now.counts.calls > given.counts.calls))
    && (good ==> AsSeen(snap.outage, now.outage))
    && (now.counts.stirs == given.counts.stirs ==>
          && (stuck ==> snap.provider.value in given.locked) && (good ==> written.losses == a.losses + many)
          && (willing && !stuck && AsSeen(snap.outage, now.outage) ==> good))
    && (Peaceful(given, now) && willing && AsSeen(snap.outage, given.outage) ==>
          (OldHeldUp(snap, provider, given) ==> stuck))
  }

  lemma WasConcluded(snap: Snapshot, provider: string, generation: nat, good: bool, stuck: bool, willing: bool,
                     many: nat, keys: set<string>, preferred: Option<string>, given: Scene, a: Scene, b: Scene,
                     c: Scene)
    requires Confirmed(snap.outage, provider, generation, true, willing, many, given, a, b) &&
      Took(given, provider, generation)
    requires Passes(keys, preferred, given, b) && Runs(b, c) && preferred == Some(provider)
    requires OldRetired(snap, provider, good, stuck, willing, b, c) &&
      (stuck ==> Culprit(preferred, b, c, snap.provider.value))
    requires snap.provider.Some? ==> snap.provider.value !in keys
    ensures Concluded(snap, provider, good && AsSeen(snap.outage, c.outage), stuck, willing, many, given, a, b, c)
    ensures good ==> OldGone(snap, provider, c)
  {
    hide Drift, Ages, Passes, AsSeen, Blamed;
    PassesParts(keys, preferred, given, b);
    if stuck {
      ConcludeStuck(keys, preferred, given, b, c, provider, generation, snap.provider.value);
    }
    if Displaced(snap, provider) && given.counts.stirs == b.counts.stirs {
      ApartAt(keys, given.instances, b.instances, snap.provider.value);
      Unlocked(given, b);
    }
  }

  lemma Unlocked(a: Scene, b: Scene)
    requires Flows(a, b)
    ensures a.locked <= b.locked && b.elsewhere <= a.elsewhere
  {
    hide Drift, Ages;
  }

  lemma NotConcluded(snap: Snapshot, provider: string, generation: nat, willing: bool, many: nat, keys: set<string>,
                     preferred: Option<string>, given: Scene, a: Scene, b: Scene)
    requires Confirmed(snap.outage, provider, generation, false, willing, many, given, a, b)
    requires Passes(keys, preferred, given, b) && (Peaceful(given, b) ==> SameOutage(given.outage, b.outage))
    ensures Concluded(snap, provider, false, false, willing, many, given, a, b, b)
  {
    hide Passes;
  }

  /** Only who held up the old provider before, or a call to the role, can have done so. */
  lemma ConcludeStuck(keys: set<string>, preferred: Option<string>, given: Scene, b: Scene, c: Scene, provider: string,
                      generation: nat, key: string)
    requires Passes(keys, preferred, given, b) && Took(given, provider, generation) && Shown(b, provider, generation)
    requires preferred == Some(provider) && key != provider && Culprit(preferred, b, c, key)
    ensures HeldUp(given, key) || c.counts.calls > given.counts.calls
  {
    hide Drift, Ages, Still, Stands, Lent;
    StillShown(keys, preferred, given, b, provider);
    assert Providers(given.leases) == [provider];
  }

  lemma ShownOwns(a: Scene, provider: string, generation: nat)
    requires Shown(a, provider, generation)
    ensures OwnsIn(a, provider)
  {
  }

  /** What comes of a migration once the role has changed hands, with nobody to restart or with these consumers. As far
      as nothing stirs it succeeds, outside an outage, exactly if nothing was lost when the fence was last looked at;
      and in an outage if all is quiet. */
  ghost predicate Moved(snap: Snapshot, provider: string, consumers: seq<string>, good: bool, stuck: bool,
                        willing: bool, many: nat, given: Scene, looked: Scene, written: Scene, now: Scene)
  {
    && (stuck ==>
          && !good && Displaced(snap, provider)
          && (HeldUp(given, snap.provider.value) || now.counts.calls > given.counts.calls))
    && (now.counts.stirs == given.counts.stirs && stuck ==> snap.provider.value in given.locked)
    && (consumers == [] ==>
          && looked == given && (now.counts.stirs == given.counts.stirs && good ==>
                                 written.losses == given.losses + many))
    && (snap.outage.None? && now.counts.stirs == given.counts.stirs && !stuck && Promising(consumers, None, given) ==>
          (good ==> looked.losses == given.losses) && (willing && looked.losses == given.losses ==> good))
    && (Peaceful(given, now) && willing && !stuck && Promising(consumers, snap.outage, given) ==> good)
    && (Peaceful(given, now) && willing && AsSeen(snap.outage, given.outage) && consumers == [] ==>
          (OldHeldUp(snap, provider, given) ==> stuck))
    && (Peaceful(given, now) && !stuck ==> Standing(given, now, provider))
  }

  /** The provider shows the display with the same process as before, and nobody exited or came to wait for this
      task. */
  ghost predicate Standing(a: Scene, b: Scene, provider: string) {
    && b.leases != [] && b.leases[0].provider == provider && provider in b.instances && provider in a.instances
    && b.instances[provider] == a.instances[provider] && b.exited == a.exited && b.locked == a.locked
    && b.watched == a.watched
  }

  lemma StandingSo(keys: set<string>, preferred: Option<string>, a: Scene, b: Scene, provider: string, generation: nat)
    requires Passes(keys, preferred, a, b) && Took(a, provider, generation) && provider !in keys
    ensures Peaceful(a, b) ==> Standing(a, b, provider)
  {
    StandsWhenQuiet(keys, preferred, a, b, provider);
  }

  lemma MovedOn(snap: Snapshot, provider: string, consumers: seq<string>, good: bool, stuck: bool, willing: bool,
                some: nat, many: nat, given: Scene, looked: Scene, a: Scene, written: Scene, now: Scene)
    requires InPeace(consumers, snap.outage, true, willing, given, a)
    requires OnTime(consumers, snap.outage, true, willing, given, looked, a)
    requires consumers == [] ==> looked == given && a == given && some == many
    requires Concluded(snap, provider, good, stuck, willing, some, given, a, written, now) && Runs(given, a) &&
      Runs(a, now)
    requires Peaceful(given, now) && AsSeen(snap.outage, given.outage) && !stuck ==> AsSeen(snap.outage, now.outage)
    requires Peaceful(given, now) && !stuck ==> Standing(given, now, provider)
    ensures Moved(snap, provider, consumers, good, stuck, willing, many, given, looked, written, now)
  {
    hide AsSeen;
    AlwaysSeen(now.outage);
  }

  lemma AlwaysSeen(o: Option<Outage>)
    ensures AsSeen(None, o)
  {
  }

  lemma NotMoved(snap: Snapshot, provider: string, consumers: seq<string>, willing: bool, many: nat, given: Scene,
                 looked: Scene, a: Scene)
    requires InPeace(consumers, snap.outage, false, willing, given, a) && consumers != []
    requires OnTime(consumers, snap.outage, false, willing, given, looked, a)
    requires Peaceful(given, a) ==> Standing(given, a, provider)
    ensures Moved(snap, provider, consumers, false, false, willing, many, given, looked, given, a)
  {
  }

  lemma RenewedSo(consumers: seq<string>, o: Option<Outage>, attempted: seq<string>, spared: set<string>, willing: bool,
                  up: map<string, Instance>, snap: Snapshot, provider: string, given: Scene, looked: Scene, a: Scene,
                  now: Scene)
    requires Restarting(consumers, |consumers|, true, o, attempted, spared, willing, up, given, looked, a)
    requires Flows(given, a) && Flows(a, now) && Runs(given, a) && Runs(a, now)
    requires forall c :: c in OldOf(snap, provider) ==> c !in Elements(consumers)
    requires a.counts.stirs == now.counts.stirs ==> Apart(OldOf(snap, provider), a.instances, now.instances)
    ensures Renewed(consumers, spared, o, given, now, up)
  {
    hide Flows, Restarted, Lasting, Justified, InPeace, OnTime, Elements, Purged;
    LastingAfter(consumers, spared, up, snap, provider, a, now);
    PurgedStill(consumers, |consumers|, given, a, now);
    StillJustified(spared, o, a, now);
  }

  lemma RestartingParts(consumers: seq<string>, good: bool, o: Option<Outage>, attempted: seq<string>,
                        spared: set<string>, willing: bool, up: map<string, Instance>, given: Scene, looked: Scene,
                        a: Scene)
    requires Restarting(consumers, |consumers|, good, o, attempted, spared, willing, up, given, looked, a)
    ensures Distinct(attempted) && (forall c :: c in attempted ==> c in consumers) && Flows(given, looked)
    ensures InPeace(consumers, o, good, willing, given, a) && OnTime(consumers, o, good, willing, given, looked, a)
  {
    hide Flows, Restarted, Lasting, Justified, InPeace, OnTime, Elements;
    assert consumers[..|consumers|] == consumers;
  }

  lemma QuietlySeen(keys: set<string>, preferred: Option<string>, a: Scene, b: Scene, o: Option<Outage>)
    requires Passes(keys, preferred, a, b)
    ensures Peaceful(a, b) && AsSeen(o, a.outage) ==> AsSeen(o, b.outage)
  {
    hide Ages, Seats;
    QuietOutage(keys, a, b);
  }

  /** The new provider was made ready, in the outage that was looked at if there was one; or not; or that never ends. */
  ghost predicate Prepared(o: Option<Outage>, provider: string, preferred: Option<string>, ready: bool, stuck: bool,
                           willing: bool, a: Scene, b: Scene)
  {
    && (ready ==>
          && IsUp(b.instances, provider) && AsSeen(o, b.outage)
          && (preferred == Some(provider) ==> b.leases != []))
    && (ready && b.counts.stirs == a.counts.stirs ==> b.quarantined == a.quarantined)
    && (Peaceful(a, b) ==>
          && (ready ==> !Exited(b.instances, b.exited, provider))
          && (!ready && !stuck && AsSeen(o, a.outage) && (provider !in Providers(a.leases) || OwnsIn(a, provider)) ==>
                b.leases == a.leases)
          && (stuck ==> ExitUnseen(a, provider) || HeldUp(a, provider)) && (ExitUnseen(a, provider) ==> stuck)
          && (provider in a.quarantined ==> !ready)
          && (willing && Fitting(a, provider) && !stuck && preferred == Some(provider) ==>
                IsUp(b.instances, provider) && b.leases != [])
          && (willing && AsSeen(o, a.outage) && Fitting(a, provider) && !stuck ==> ready))
  }

  /** The migration has not ended, as it could not: that takes a loss; and in an outage that was looked at, a target
      that had no process, or a call to the role. */
  ghost predicate Doomed(snap: Snapshot, provider: string, start: Scene, now: Scene) {
    Unawaited(start) ==>
      && now.losses > start.losses
      && (snap.outage.Some? ==> Fresh(snap, provider) || now.counts.calls > start.counts.calls)
  }

  lemma DoomedAtNew(snap: Snapshot, provider: string, preferred: Option<string>, start: Scene, a: Scene, b: Scene)
    requires Flows(start, a) && Culprit(preferred, a, b, provider) && Fresh(snap, provider)
    ensures Doomed(snap, provider, start, b)
  {
    hide Drift, Ages;
    WedgedSince(preferred, start, a, b, provider);
  }

  lemma DoomedBack(snap: Snapshot, provider: string, start: Scene, b: Scene, outage: Option<Outage>, now: Scene)
    requires Flows(start, b) && Wedged(b.(outage := outage), now) && (snap.outage.None? || Fresh(snap, provider))
    ensures Doomed(snap, provider, start, now)
  {
    hide Drift, Ages;
  }

  lemma DoomedMoving(snap: Snapshot, provider: string, consumers: seq<string>, willing: bool, many: nat, start: Scene,
                     a: Scene, given: Scene, looked: Scene, written: Scene, now: Scene)
    requires Flows(start, a) && Wedged(a, now) && given == a.(leases := given.leases) && AsSeen(snap.outage, a.outage)
    requires start.outage == snap.outage
    requires Moved(snap, provider, consumers, false, true, willing, many, given, looked, written, now)
    ensures Doomed(snap, provider, start, now)
  {
    hide Ages, Promising, Standing;
    WedgedThen(start, a, now);
    if snap.outage.Some? && Unawaited(start) {
      RevisionCountsLosses(start, a);
      assert Unawaited(a);
    }
  }

  /** What became of a migration after the role had changed hands, or had not since that could not be. */
  ghost predicate Proceeded(snap: Snapshot, provider: string, applicable: bool, outcome: Outcome, trace: Trace,
                            willing: bool, many: nat, now: Scene)
  {
    var given, turned := trace.given, trace.turned;
    && (outcome.Done? ==> applicable && turned.counts == now.counts) && Runs(given, turned) && Runs(turned, now)
    && (applicable ==>
          && (snap.outage.None? && turned.counts.stirs == given.counts.stirs &&
              Promising(trace.consumers, None, given) &&
              OldFree(snap, provider, given) ==>
                && (outcome.Done? ==> trace.looked.losses == given.losses)
                && (willing && trace.looked.losses == given.losses ==> outcome.Done?))
          && (Peaceful(given, now) && Unawaited(given) && !Exited(given.instances, given.exited, provider) ==>
                !outcome.Stuck?)
          && (Peaceful(given, now) && OldFree(snap, provider, given) && willing ==>
                (Promising(trace.consumers, snap.outage, given) ==> outcome.Done?))
          && (trace.consumers == [] ==>
                && trace.looked == given
                && (turned.counts.stirs == given.counts.stirs && outcome.Done? ==>
                      trace.written.losses == given.losses + many))
          && (Peaceful(given, now) && willing && AsSeen(snap.outage, given.outage) && trace.consumers == [] ==>
                (OldHeldUp(snap, provider, given) ==> outcome.Stuck?)))
  }

  /** Nobody who waits for this task holds up the old provider. */
  ghost predicate OldFree(snap: Snapshot, provider: string, a: Scene) {
    Displaced(snap, provider) ==> snap.provider.value !in a.locked
  }

  /** `stuck` says whether it was already stuck before anything was rolled back. */
  lemma ProceededSo(snap: Snapshot, provider: string, applicable: bool, invalid: bool, outcome: Outcome, stuck: bool,
                    trace: Trace, willing: bool, many: nat, a: Scene, now: Scene)
    requires trace.given == a.(leases := trace.given.leases) && Runs(a, trace.turned)
    requires !outcome.Done? && !stuck ==> Runs(trace.turned, now)
    requires if outcome.Done? then now == trace.turned.(outage := now.outage) && !stuck else
      stuck || (outcome.Stuck? && Peaceful(trace.turned, now) ==>
                  OldDead(snap, trace.turned) || provider in trace.turned.locked)
    requires stuck ==> outcome.Stuck? && now == trace.turned
    requires if applicable then
        Moved(snap, provider, if invalid then trace.consumers else [], outcome.Done?, stuck, willing, many, trace.given,
              trace.looked, trace.written, trace.turned)
      else !outcome.Done?
    ensures Proceeded(snap, provider, applicable, outcome, trace, willing, many, now)
  {
    var given, turned, list := trace.given, trace.turned, if invalid then trace.consumers else [];
    if applicable {
      FewerPromising(trace.consumers, invalid, snap.outage, given);
      if Peaceful(given, now) && Unawaited(given) && !Exited(given.instances, given.exited, provider) && !stuck {
        NotDead(snap, provider, given, turned);
      }
    }
  }

  lemma FewerPromising(consumers: seq<string>, invalid: bool, o: Option<Outage>, given: Scene)
    ensures Promising(consumers, o, given) ==> Promising(if invalid then consumers else [], o, given)
  {
  }

  lemma NotDead(snap: Snapshot, provider: string, given: Scene, turned: Scene)
    requires Standing(given, turned, provider) && Unawaited(given)
    requires !Exited(given.instances, given.exited, provider)
    ensures !OldDead(snap, turned) && provider !in turned.locked
  {
  }

  /** A migration was given up; `a` is the moment before. */
  lemma GivenUp(snap: Snapshot, s: RoleState, provider: string, ok: bool, stuck: bool, willing: bool, a: Scene,
                b: Scene)
    requires NewRetired(snap, provider, ok, stuck, willing, a, b) && SnapshotOk(s, snap, provider)
    ensures (stuck ==> Fresh(snap, provider)) && (Fresh(snap, provider) && Exposing(a, provider) ==> stuck)
    ensures Peaceful(a, b) && a.leases == snap.leases ==> if stuck then provider in a.locked else b.leases == a.leases
    ensures ok ==> NewGone(snap, provider, b, b)
  {
    hide Restorable, SameOutage;
    if a.leases == snap.leases && OwnsIn(a, provider) {
      assert Providers(a.leases)[0] == provider;
    }
  }

  lemma ConcludeRetired(keys: set<string>, preferred: Option<string>, given: Scene, a: Scene, b: Scene, c: Scene,
                        snap: Snapshot, provider: string)
    requires Passes(keys, preferred, given, b) && Passes({}, preferred, a, b) &&
      Passes(OldOf(snap, provider), preferred, b, c)
    ensures Passes(keys + OldOf(snap, provider), preferred, given, c) && Flows(b, c) && Flows(a, c) && Runs(a, c)
    ensures a.counts.stirs == c.counts.stirs ==> Apart(OldOf(snap, provider), a.instances, c.instances)
  {
    hide Seats, Drift, Ages;
    Widen(keys, keys + OldOf(snap, provider), preferred, given, b);
    Widened(OldOf(snap, provider), keys + OldOf(snap, provider), preferred, given, b, c);
    FlowsThen(a, b, c);
  }

  /** How far a recovery from an outage has come. As long as nothing was lost, each of the first `k` consumers that
      inherit the session was let through with its captured budget, or spared: it was quarantined. If no other task did
      anything, they are up, as far as nothing was in the way of starting them. */
  ghost predicate Recovered(o: Outage, k: nat, visual: set<string>, spared: set<string>, willing: bool, start: Scene,
                            now: Scene)
    requires k <= |o.consumers|
  {
    now.losses == start.losses ==>
      && (forall j :: 0 <= j < k && o.consumers[j] in visual ==>
            o.consumers[j] in spared || LetIn(o, o.consumers[j], |start.admissions|, now.admissions))
      && (forall c :: c in spared ==> c in o.preexisting || c in now.condemned)
      && (Peaceful(start, now) ==>
            && (forall c :: c in spared ==> c in o.preexisting || c in start.quarantined)
            && (willing ==> forall j :: 0 <= j < k && Awaits(o, visual, start, o.consumers[j]) ==>
                  Fitting(now, o.consumers[j]) && IsUp(now.instances, o.consumers[j])))
  }

  /** Does this consumer inherit the session, was it not quarantined, and is nothing in the way of starting it? */
  ghost predicate Awaits(o: Outage, visual: set<string>, start: Scene, key: string) {
    key in visual && key !in o.preexisting && Fitting(start, key)
  }

  /** Who has been spared, with this consumer. */
  ghost function Spares(o: Outage, k: nat, visual: set<string>, skip: bool, spared: set<string>): set<string>
    requires k < |o.consumers|
  {
    var key := o.consumers[k];
    if skip && key in visual && key !in o.consumers[..k] then spared + {key} else spared
  }

  /** Is this consumer left alone by the recovery? */
  ghost predicate LeftAlone(key: string, visual: set<string>, a: Scene) {
    key !in visual || (a.outage.Some? && key in a.outage.value.preexisting) || key in a.quarantined
  }

  lemma NobodyRecovered(o: Outage, visual: set<string>, willing: bool, start: Scene)
    ensures Recovered(o, 0, visual, {}, willing, start, start)
  {
  }

  lemma NewOnesAreNew(a: Scene, b: Scene)
    requires Flows(a, b)
    ensures forall c :: IsUp(b.instances, c) && c !in a.instances ==> RunsAnew(c, b.instances, a.generations)
  {
    hide Drift;
    assert forall c :: c in b.instances ==> Follows(c, a.instances, a.generations, b.instances[c]);
  }

  lemma RecoveredStill(o: Outage, visual: set<string>, spared: set<string>, willing: bool, start: Scene, a: Scene,
                       b: Scene)
    requires Recovered(o, |o.consumers|, visual, spared, willing, start, a) && b == a.(outage := b.outage)
    ensures Recovered(o, |o.consumers|, visual, spared, willing, start, b)
  {
    hide LetIn;
  }

  /** One more consumer was handled; one that is listed again is not spared again. */
  lemma OneMoreRecovered(o: Outage, k: nat, visual: set<string>, spared: set<string>, skip: bool, willing: bool,
                         preferred: Option<string>, start: Scene, a: Scene, b: Scene)
    requires k < |o.consumers| && Recovered(o, k, visual, spared, willing, start, a) && start.outage == Some(o)
    requires Passes(Elements(o.consumers[..k]), preferred, start, a) && Passes({o.consumers[k]}, preferred, a, b)
    requires Recorded(o) && a.quarantined <= a.condemned
    requires skip == LeftAlone(o.consumers[k], visual, a) && (skip ==> b == a)
    requires !skip ==> a.outage.Some?
    requires !skip && o.consumers[k] in a.outage.value.budgets ==>
      LetIn(a.outage.value, o.consumers[k], |a.admissions|, b.admissions)
    requires !skip && Peaceful(a, b) && willing && Fitting(a, o.consumers[k]) ==>
      Fitting(b, o.consumers[k]) && IsUp(b.instances, o.consumers[k])
    ensures Recovered(o, k + 1, visual,
                      Spares(o, k, visual, skip, spared),
                      willing, start, b)
  {
    hide LetIn, Fitting, Seats, Ages;
    var later := Spares(o, k, visual, skip, spared);
    if b.losses == start.losses {
      assert a.losses == start.losses && SameOutage(start.outage, a.outage);
      forall j | 0 <= j < k + 1 && o.consumers[j] in visual
        ensures o.consumers[j] in later || LetIn(o, o.consumers[j], |start.admissions|, b.admissions)
      {
        AdmittedSoon(o, k, j, visual, spared, skip, start, a, b);
      }
      FitSoon(o, k, visual, spared, skip, willing, preferred, start, a, b);
    }
  }

  lemma FitSoon(o: Outage, k: nat, visual: set<string>, spared: set<string>, skip: bool, willing: bool,
                preferred: Option<string>, start: Scene, a: Scene, b: Scene)
    requires k < |o.consumers| && Recovered(o, k, visual, spared, willing, start, a) && start.outage == Some(o)
    requires Passes(Elements(o.consumers[..k]), preferred, start, a) && Still({o.consumers[k]}, a, b) && Runs(a, b)
    requires Runs(start, a)
    requires a.losses == start.losses && SameOutage(start.outage, a.outage)
    requires skip == LeftAlone(o.consumers[k], visual, a) && (skip ==> b == a)
    requires !skip && Peaceful(a, b) && willing && Fitting(a, o.consumers[k]) ==>
      Fitting(b, o.consumers[k]) && IsUp(b.instances, o.consumers[k])
    ensures Peaceful(start, b) && skip && o.consumers[k] !in o.consumers[..k] && o.consumers[k] in visual ==>
      o.consumers[k] in o.preexisting || o.consumers[k] in start.quarantined
    ensures Peaceful(start, b) && willing ==>
      forall j :: 0 <= j <= k && Awaits(o, visual, start, o.consumers[j]) ==>
        Fitting(b, o.consumers[j]) && IsUp(b.instances, o.consumers[j])
  {
    hide LetIn, Flows, Seats, FitIn;
    if Peaceful(start, b) {
      FitBefore(o, k, visual, spared, willing, preferred, start, a);
      forall j | willing && 0 <= j <= k && Awaits(o, visual, start, o.consumers[j])
        ensures Fitting(b, o.consumers[j]) && IsUp(b.instances, o.consumers[j])
      {
        if o.consumers[j] != o.consumers[k] {
          FitStays({o.consumers[k]}, a, b, o.consumers[j]);
        }
      }
    }
  }

  lemma AdmittedSoon(o: Outage, k: nat, j: nat, visual: set<string>, spared: set<string>, skip: bool, start: Scene,
                     a: Scene, b: Scene)
    requires k < |o.consumers| && j <= k && o.consumers[j] in visual && Recorded(o) && start.outage == Some(o)
    requires forall i :: 0 <= i < k && o.consumers[i] in visual ==>
      o.consumers[i] in spared || LetIn(o, o.consumers[i], |start.admissions|, a.admissions)
    requires start.admissions <= a.admissions <= b.admissions && SameOutage(start.outage, a.outage)
    requires skip == LeftAlone(o.consumers[k], visual, a) && (skip ==> b == a)
    requires !skip ==> a.outage.Some?
    requires !skip && o.consumers[k] in a.outage.value.budgets ==>
      LetIn(a.outage.value, o.consumers[k], |a.admissions|, b.admissions)
    ensures o.consumers[j] in spared || (skip && o.consumers[k] !in o.consumers[..k] && j == k) ||
            LetIn(o, o.consumers[j], |start.admissions|, b.admissions)
  {
    hide LetIn;
    var key := o.consumers[k];
    if j < k || (skip && key in o.consumers[..k]) {
      var i := j;
      if j == k {
        i := IndexIn(o.consumers, key, k);
      }
      if o.consumers[i] !in spared {
        LetInStill(o, o.consumers[i], |start.admissions|, a.admissions, b.admissions);
      }
    } else if !skip {
      LetInSame(o, a.outage.value, key, |start.admissions|, |a.admissions|, b.admissions);
    }
  }

  lemma IndexIn(keys: seq<string>, key: string, k: nat) returns (i: nat)
    requires k <= |keys| && key in keys[..k]
    ensures i < k && keys[i] == key
  {
    i :| 0 <= i < k && keys[..k][i] == key;
  }

  lemma LetInSame(o: Outage, p: Outage, key: string, before: nat, later: nat, admissions: seq<Admission>)
    requires LetIn(p, key, later, admissions) && p.id == o.id && p.budgets == o.budgets && before <= later
    ensures LetIn(o, key, before, admissions)
  {
  }

  /** A component that other tasks left alone still fits, and so does one that is not handled. */
  lemma FitStays(keys: set<string>, a: Scene, b: Scene, key: string)
    requires Still(keys, a, b) && Peaceful(a, b) && key !in keys
    ensures Fitting(a, key) ==> Fitting(b, key)
    ensures key in a.instances <==> key in b.instances
    ensures key in a.instances ==> b.instances[key] == a.instances[key]
  {
  }

  lemma FitBefore(o: Outage, k: nat, visual: set<string>, spared: set<string>, willing: bool,
                  preferred: Option<string>, start: Scene, a: Scene)
    requires k < |o.consumers| && Recovered(o, k, visual, spared, willing, start, a) && start.outage == Some(o)
    requires Passes(Elements(o.consumers[..k]), preferred, start, a) && Peaceful(start, a) && a.losses == start.losses
    ensures willing && Awaits(o, visual, start, o.consumers[k]) ==> Fitting(a, o.consumers[k])
    ensures o.consumers[k] !in o.consumers[..k] && o.consumers[k] in a.quarantined ==>
      o.consumers[k] in start.quarantined
  {
    hide LetIn, Flows, Seats;
    var key := o.consumers[k];
    if key in o.consumers[..k] {
      var i := IndexIn(o.consumers, key, k);
    } else {
      FitStays(Elements(o.consumers[..k]), start, a, key);
    }
  }

  /** Since so many admissions this component was let through, with the budget that was captured. */
  ghost predicate LetIn(o: Outage, key: string, before: nat, admissions: seq<Admission>) {
    exists k :: before <= k < |admissions| && admissions[k] == Admission(o.id, key, BaselineIn(o, key))
  }

  lemma LetInNow(o: Outage, key: string, before: seq<Admission>, after: seq<Admission>)
    requires key in o.budgets ==> after == before + [Admission(o.id, key, BaselineIn(o, key))]
    ensures key in o.budgets ==> LetIn(o, key, |before|, after)
  {
    assert key in o.budgets ==> after[|before|] == Admission(o.id, key, BaselineIn(o, key));
  }

  lemma LetInStill(o: Outage, key: string, before: nat, a: seq<Admission>, b: seq<Admission>)
    requires LetIn(o, key, before, a) && a <= b
    ensures LetIn(o, key, before, b)
  {
    var k :| before <= k < |a| && a[k] == Admission(o.id, key, BaselineIn(o, key));
    assert b[k] == a[k];
  }

  /** The record after a rollback has put back what it looked at. */
  ghost function Reinstated(o: Option<Outage>, now: Option<Outage>): Option<Outage> {
    if o.Some? then Some(o.value.(allowed := {})) else now
  }

  /** What a migration remembers of the session it may have to put back. */
  datatype Snapshot = Snapshot(
    leases: seq<Lease>, provider: Option<string>, override: Option<string>, generation: Option<nat>, hadTarget: bool,
    outage: Option<Outage>)

  /** The leases and the override can be put back; the old provider is the first holder, if there is one; another target
      without a process holds nothing. */
  ghost predicate SnapshotOk(s: RoleState, snap: Snapshot, provider: string) {
    && Restorable(s, snap.leases, snap.override)
    && (snap.leases != [] ==> snap.provider == Some(snap.leases[0].provider))
    && (!snap.hadTarget && snap.provider != Some(provider) ==> provider !in Providers(snap.leases))
  }

  lemma SnapshotRestorable(s: RoleState, snap: Snapshot, provider: string)
    requires SnapshotOk(s, snap, provider)
    ensures Restorable(s, snap.leases, snap.override)
  {
  }

  /** The leases belong to those they belonged to; an outage may have ended with the old provider seated. */
  ghost predicate SeatBack(snap: Snapshot, leases: seq<Lease>) {
    || Providers(leases) == Providers(snap.leases)
    || (snap.outage.Some? && snap.leases == [] && |leases| == 1 && snap.provider == Some(leases[0].provider))
  }

  lemma LeasedBack(snap: Snapshot, before: seq<Lease>, after: seq<Lease>, holder: Option<string>)
    requires Providers(before) == Providers(snap.leases) && snap.outage.Some? && snap.provider.Some?
    requires Grants(after) == Grants(before) || (before == [] && Grants(after) == [Grant(snap.provider.value, holder)])
    ensures SeatBack(snap, after)
  {
    if Grants(after) == Grants(before) {
      GrantsGiveProviders(after, before);
    } else {
      assert |Grants(after)| == 1 && |Providers(before)| == 0 && |Providers(snap.leases)| == 0;
    }
  }

  lemma NotAmongThem(s: RoleState, snap: Snapshot, provider: string, leases: seq<Lease>)
    requires SnapshotOk(s, snap, provider) && SeatBack(snap, leases) && snap.provider != Some(provider)
    requires !snap.hadTarget
    ensures provider !in Providers(leases) && (leases != [] ==> leases[0].provider != provider)
  {
    hide Restorable;
    if leases != [] {
      assert Providers(leases)[0] == leases[0].provider;
    }
  }

  lemma OverriddenWhole(a: map<string, string>, b: map<string, string>)
    requires forall other :: other != DISPLAY ==> Override(b, other) == Override(a, other)
    ensures b == Overridden(a, Override(b, DISPLAY))
  {
    forall k ensures k in b <==> k in Overridden(a, Override(b, DISPLAY)) {
      assert k != DISPLAY ==> Override(b, k) == Override(a, k);
    }
    forall k | k in b ensures b[k] == Overridden(a, Override(b, DISPLAY))[k] {
      assert k != DISPLAY ==> Override(b, k) == Override(a, k);
    }
  }

  lemma FewerProviders(s: seq<Lease>, key: string, p: string)
    requires p in FirstOccurrences(Providers(Others(s, key)))
    ensures p in FirstOccurrences(Providers(s))
  {
    var after := Others(s, key);
    var k :| 0 <= k < |after| && Providers(after)[k] == p;
    OthersFacts(s, key);
    assert after[k] in after;
    var j :| 0 <= j < |s| && s[j] == after[k];
    assert Providers(s)[j] == p;
  }

  lemma OrderKeeps(s: RoleState, visual: set<string>, order: set<string> -> seq<string>, keys: set<string>)
    requires Setup(s, visual, order)
    ensures Distinct(order(keys)) && forall k :: k in order(keys) <==> k in keys
  {
    assert Elements(order(keys)) == keys;
    forall k ensures k in order(keys) <==> k in keys {
      assert k in Elements(order(keys)) <==> k in order(keys);
    }
  }

  /** Leases as they are to be restored: on behalf of the provider's running process, if it has one. */
  function Refreshed(former: seq<Lease>, instances: map<string, Instance>): (r: seq<Lease>)
    ensures |r| == |former| && forall k :: 0 <= k < |r| ==> r[k].provider == former[k].provider
  {
    seq(|former|, k requires 0 <= k < |former| =>
      var p := former[k].provider;
      if IsUp(instances, p) then former[k].(holder := Holder(instances[p].generation)) else former[k])
  }

  /** The leases are back, each for the provider's process if that is up, and else for whom it was. */
  ghost predicate HeldFor(former: seq<Lease>, grants: seq<Grant>, instances: map<string, Instance>) {
    |grants| == |former| && forall k :: 0 <= k < |former| ==>
      grants[k] == Grant(former[k].provider, if IsUp(instances, former[k].provider)
                         then Holder(instances[former[k].provider].generation) else former[k].holder)
  }

  /** So it is, or an outage in which nobody held the role has ended with the old provider seated, which is up. */
  ghost predicate Reseated(snap: Snapshot, now: Scene) {
    || HeldFor(snap.leases, Grants(now.leases), now.instances)
    || (snap.outage.Some? && snap.leases == [] && snap.provider.Some? && IsUp(now.instances, snap.provider.value) &&
        Grants(now.leases) == [Grant(snap.provider.value, Holder(now.instances[snap.provider.value].generation))])
  }

  lemma RefreshedHeld(former: seq<Lease>, leases: seq<Lease>, instances: map<string, Instance>)
    requires Grants(leases) == Grants(Refreshed(former, instances))
    ensures HeldFor(former, Grants(leases), instances)
  {
  }

  /** Leases and an override that can be put back. */
  ghost predicate Restorable(s: RoleState, former: seq<Lease>, override: Option<string>) {
    && (forall l :: l in former ==> IsCandidateOf(s, l.provider)) && (s.exclusive ==> |former| <= 1)
    && (override.Some? ==> IsCandidateOf(s, override.value))
  }

  lemma StillRestorable(s: RoleState, former: seq<Lease>, override: Option<string>, leases: seq<Lease>)
    requires Restorable(s, former, override) && |leases| == |former|
    requires forall k :: 0 <= k < |leases| ==> leases[k].provider == former[k].provider
    ensures Restorable(s, leases, override) && Providers(leases) == Providers(former)
  {
    hide IsCandidateOf;
    forall l | l in leases ensures IsCandidateOf(s, l.provider) {
      var k :| 0 <= k < |leases| && leases[k] == l;
      assert former[k] in former;
    }
  }

  lemma GrantsGiveProviders(a: seq<Lease>, b: seq<Lease>)
    requires Grants(a) == Grants(b)
    ensures Providers(a) == Providers(b)
  {
    assert |Grants(a)| == |Grants(b)|;
    forall k | 0 <= k < |a| ensures Providers(a)[k] == Providers(b)[k] {
      assert Grants(a)[k] == Grants(b)[k];
    }
  }

  lemma KeepsNumber(instances: map<string, Instance>, generations: map<string, nat>, key: string, i: Instance)
    requires Numbered(instances, generations) && key in instances && i.generation == instances[key].generation
    ensures Numbered(instances[key := i], generations)
  {
  }

  lemma NextNumber(instances: map<string, Instance>, generations: map<string, nat>, exited: set<(string, nat)>,
                   key: string, stage: Stage)
    requires Numbered(instances, generations) && Dated(exited, generations)
    ensures var g := if key in generations then generations[key] + 1 else 1;
      && Numbered(instances[key := Instance(g, stage)], generations[key := g])
      && Numbered(instances, generations[key := g]) && Dated(exited, generations[key := g]) && (key, g) !in exited
  {
  }

  /** The preferred provider is the durable override, or else the first candidate. */
  ghost predicate Aligned(s: RoleState, preferred: Option<string>, override: Option<string>) {
    preferred == if override.Some? then override
                 else if s.candidates == [] then None else Some(s.candidates[0].provider)
  }
}
