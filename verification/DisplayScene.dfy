/** What can be seen of the display session at one moment, and how it may change while a task waits.

    Between two moments other tasks run: processes fail and come up, they are stopped and asked for, and with them
    displays are lost and roles are taken. `Passes` says what nevertheless holds, and that it may be chained. */
module DisplayScene {
  import opened RuntimePlanModel
  import opened RoleRegistryModel
  import opened DisplayFence

  /** How far the supervisor knows a process to be: coming up, up, its channel lost, its exit seen. It never goes
      back. */
  datatype Stage = Starting | Up | Cut | Over

  datatype Instance = Instance(generation: nat, stage: Stage)

  /** What other tasks did: anything but stopping the provider that shows the display; that; a call to the display role
      that moved its leases; removing the process that shows the display. And how often somebody was let through. */
  datatype Counts = Counts(stirs: nat, taken: nat, calls: nat, pulled: nat, opens: nat)

  /** The session at one moment. `exited` are the processes that have exited, whether anybody has seen it or not;
      `stopping` the components being stopped; `locked` those whose start is held up by a task that waits for this one;
      `watched` the processes whose exit is being handled by such a task; `elsewhere` the holders of other roles. */
  datatype Scene = Scene(
    outage: Option<Outage>, nextId: nat, losses: nat, admissions: seq<Admission>,
    quarantined: set<string>, condemned: set<string>, leases: seq<Lease>, elsewhere: set<string>,
    instances: map<string, Instance>, generations: map<string, nat>, exited: set<(string, nat)>,
    stopping: set<string>, locked: set<string>, watched: set<(string, nat)>, counts: Counts, tick: nat)

  function Rank(s: Stage): nat {
    match s
    case Starting => 0
    case Up => 1
    case Cut => 2
    case Over => 3
  }

  predicate IsUp(instances: map<string, Instance>, key: string) {
    key in instances && instances[key].stage == Up
  }

  /** Has the component's process exited? */
  predicate Exited(instances: map<string, Instance>, exited: set<(string, nat)>, key: string) {
    key in instances && (key, instances[key].generation) in exited
  }

  /** Is its process there, and has it not exited? */
  ghost predicate AliveIn(a: Scene, key: string) {
    key in a.instances && a.instances[key].stage != Over && !Exited(a.instances, a.exited, key)
  }

  /** Has its process exited without anybody having noticed? */
  ghost predicate UnseenIn(a: Scene, key: string) {
    key in a.instances && a.instances[key].stage != Over && Exited(a.instances, a.exited, key)
  }

  /** Is it the first to hold the display role? */
  ghost predicate OwnsIn(a: Scene, key: string) {
    a.leases != [] && a.leases[0].provider == key
  }

  /** The component is refused or ready at once, or a start of it is under way. */
  ghost predicate FitIn(a: Scene, key: string) {
    !UnseenIn(a, key) && (AliveIn(a, key) ==> a.instances[key].stage != Cut)
  }

  /** Every process carries a generation that was given out. */
  ghost predicate Numbered(instances: map<string, Instance>, generations: map<string, nat>) {
    forall k :: k in instances ==> k in generations && instances[k].generation <= generations[k]
  }

  ghost predicate Dated(exited: set<(string, nat)>, generations: map<string, nat>) {
    forall e :: e in exited ==> e.0 in generations && e.1 <= generations[e.0]
  }

  ghost predicate Sound(a: Scene) {
    Numbered(a.instances, a.generations) && Dated(a.exited, a.generations)
  }

  ghost predicate Grown(a: map<string, nat>, b: map<string, nat>) {
    forall k :: k in a ==> k in b && b[k] >= a[k]
  }

  ghost predicate Newer(key: string, generation: nat, generations: map<string, nat>) {
    key in generations ==> generation > generations[key]
  }

  /** Only the given components' processes may have changed. */
  ghost predicate Apart(keys: set<string>, a: map<string, Instance>, b: map<string, Instance>) {
    forall k :: k !in keys ==> (k in a <==> k in b) && (k in a ==> b[k] == a[k])
  }

  /** The same outage but for who is let through. */
  predicate SameOutage(a: Option<Outage>, b: Option<Outage>) {
    a.Some? == b.Some? && (a.Some? ==> b.value == a.value.(allowed := b.value.allowed))
  }

  /** Nobody is let through. */
  predicate Sealed(o: Option<Outage>) {
    o.Some? ==> o.value.allowed == {}
  }

  // ---- What may happen while a task waits ----

  /** Time goes on, and what happened has happened. */
  ghost predicate Runs(a: Scene, b: Scene) {
    && a.tick <= b.tick && a.losses <= b.losses && a.counts.stirs <= b.counts.stirs && a.counts.taken <= b.counts.taken
    && a.counts.calls <= b.counts.calls && a.counts.pulled <= b.counts.pulled && a.counts.opens <= b.counts.opens
  }

  /** No other task did anything. */
  ghost predicate Peaceful(a: Scene, b: Scene) {
    b.counts.stirs == a.counts.stirs && b.counts.taken == a.counts.taken
  }

  ghost predicate Grows(a: Scene, b: Scene) {
    && Runs(a, b) && Sound(a) && Sound(b) && Grown(a.generations, b.generations)
    && a.nextId <= b.nextId && a.admissions <= b.admissions && a.condemned <= b.condemned
    && b.elsewhere <= a.elsewhere && a.exited <= b.exited && a.locked <= b.locked && a.watched <= b.watched
    && b.counts.taken - a.counts.taken <= b.losses - a.losses
    && (b.losses == a.losses ==> b.locked == a.locked && b.watched == a.watched)
  }

  /** An outage goes on, and its revision counts the losses; outside one, the first loss opens a new one. Nobody is let
      through by others. */
  ghost predicate Drift(a: Scene, b: Scene)
    requires a.losses <= b.losses
  {
    var lost := b.losses - a.losses;
    && (if a.outage.Some? then
          b.outage.Some? && Later(a.outage.value, b.outage.value, lost) &&
            (lost == 0 ==> SameOutage(a.outage, b.outage))
        else if lost == 0 then b.outage.None?
        else b.outage.Some? && b.outage.value.id >= a.nextId && b.outage.value.revision == lost)
    && (b.counts.opens == a.counts.opens && Sealed(a.outage) ==> Sealed(b.outage))
  }

  /** A process is the one it was, no less far, or one of a new generation. */
  ghost predicate Ages(a: Scene, b: Scene) {
    forall k :: k in b.instances ==> Follows(k, a.instances, a.generations, b.instances[k])
  }

  ghost predicate Follows(k: string, instances: map<string, Instance>, generations: map<string, nat>, i: Instance) {
    || (k in instances && i.generation == instances[k].generation && Rank(i.stage) >= Rank(instances[k].stage))
    || Newer(k, i.generation, generations)
  }

  ghost predicate Flows(a: Scene, b: Scene) {
    Grows(a, b) && Drift(a, b) && Ages(a, b)
  }

  /** If other tasks at most stopped the provider that shows the display, which goes on showing it, only the given
      components changed. */
  ghost predicate Still(keys: set<string>, a: Scene, b: Scene) {
    b.counts.stirs == a.counts.stirs ==>
      && b.losses - a.losses == b.counts.taken - a.counts.taken && b.counts.calls == a.counts.calls
      && Apart(keys, a.instances, b.instances) && a.quarantined <= b.quarantined <= a.quarantined + keys
      && b.exited == a.exited && b.locked == a.locked && b.watched == a.watched
      && (b.counts.taken == a.counts.taken ==> b.stopping <= a.stopping <= b.stopping + keys)
  }

  /** As long as nobody calls the display role: a provider that is up and shows the display goes on doing so while its
      process is there, and then the display was lost only to stops of that provider. If the process is gone, the
      display was lost otherwise or the process was removed. */
  ghost predicate Stands(a: Scene, b: Scene) {
    a.leases != [] && IsUp(a.instances, a.leases[0].provider) && b.counts.calls == a.counts.calls ==>
      var owner := a.leases[0].provider;
      if owner in b.instances && b.instances[owner] == a.instances[owner] then
        && b.leases != [] && b.leases[0] == a.leases[0] && |b.leases| <= |a.leases|
        && b.losses - a.losses == b.counts.taken - a.counts.taken
      else b.losses - a.losses > b.counts.taken - a.counts.taken || b.counts.pulled > a.counts.pulled
  }

  /** Who may hold the role that did not: the preferred provider, or anybody if the role was called. */
  ghost predicate MayTake(preferred: Option<string>, a: Scene, b: Scene, key: string) {
    preferred == Some(key) || b.counts.calls > a.counts.calls
  }

  /** Whoever takes the role is up, and whoever goes down holds nothing. */
  ghost predicate Lent(preferred: Option<string>, a: Scene, b: Scene) {
    forall l :: l in b.leases ==> LentTo(preferred, a, b, l)
  }

  ghost predicate LentTo(preferred: Option<string>, a: Scene, b: Scene, l: Lease) {
    || (l in a.leases && (IsUp(a.instances, l.provider) ==> IsUp(b.instances, l.provider)))
    || (IsUp(b.instances, l.provider) && MayTake(preferred, a, b, l.provider))
  }

  /** The display was lost, and this component may have shown it. */
  ghost predicate Blamed(preferred: Option<string>, a: Scene, b: Scene, key: string) {
    b.losses > a.losses && (key in Providers(a.leases) || MayTake(preferred, a, b, key))
  }

  /** Only who showed the display when it was lost has tasks that wait for this one. */
  ghost predicate Held(preferred: Option<string>, a: Scene, b: Scene) {
    && (forall k :: k in b.locked && k !in a.locked ==> Blamed(preferred, a, b, k))
    && (forall w :: w in b.watched && w !in a.watched ==> Blamed(preferred, a, b, w.0))
  }

  ghost predicate Seats(keys: set<string>, preferred: Option<string>, a: Scene, b: Scene) {
    && Stands(a, b) && Lent(preferred, a, b) && Held(preferred, a, b)
    && (b.counts.stirs == a.counts.stirs && Strangers(keys, preferred, a) ==> Untouched(a, b))
  }

  /** The leases are the same, and only whoever shows the display was asked to stop. */
  ghost predicate Untouched(a: Scene, b: Scene) {
    b.leases == a.leases && forall k :: k in b.stopping ==> k in a.stopping || ShowerOf(a) == Some(k)
  }

  /** The component that shows the display with a process, if there is one. */
  ghost function ShowerOf(a: Scene): Option<string> {
    if a.leases != [] && a.leases[0].provider in a.instances then Some(a.leases[0].provider) else None
  }

  lemma StrangersSee(keys: set<string>, preferred: Option<string>, a: Scene, b: Scene)
    requires Strangers(keys, preferred, a) && b.leases == a.leases && Apart(keys, a.instances, b.instances)
    ensures ShowerOf(b) == ShowerOf(a)
  {
    if a.leases != [] {
      assert Providers(a.leases)[0] == a.leases[0].provider;
    }
  }

  /** None of the components holds the role or is preferred for it. */
  ghost predicate Strangers(keys: set<string>, preferred: Option<string>, a: Scene) {
    (preferred.Some? ==> preferred.value !in keys) && forall k :: k in keys ==> k !in Providers(a.leases)
  }

  /** What may happen to the session while a task that handles the given components waits. */
  ghost predicate Passes(keys: set<string>, preferred: Option<string>, a: Scene, b: Scene) {
    Flows(a, b) && Still(keys, a, b) && Seats(keys, preferred, a, b)
  }

  // ---- Chaining ----

  lemma FlowsThen(a: Scene, b: Scene, c: Scene)
    requires Flows(a, b) && Flows(b, c)
    ensures Flows(a, c)
  {
    hide Ages, Drift;
    DriftThen(a, b, c);
    AgesThen(a, b, c);
  }

  lemma DriftThen(a: Scene, b: Scene, c: Scene)
    requires Grows(a, b) && Grows(b, c) && Drift(a, b) && Drift(b, c)
    ensures a.losses <= c.losses && Drift(a, c)
  {
  }

  lemma AgesThen(a: Scene, b: Scene, c: Scene)
    requires Grows(a, b) && Grows(b, c) && Ages(a, b) && Ages(b, c)
    ensures Ages(a, c)
  {
    forall k | k in c.instances ensures Follows(k, a.instances, a.generations, c.instances[k]) {
      assert Follows(k, b.instances, b.generations, c.instances[k]);
      if k in b.instances {
        assert Follows(k, a.instances, a.generations, b.instances[k]);
      }
    }
  }

  lemma StillThen(keys: set<string>, a: Scene, b: Scene, c: Scene)
    requires Grows(a, b) && Grows(b, c) && Still(keys, a, b) && Still(keys, b, c)
    ensures Still(keys, a, c)
  {
  }

  lemma StandsThen(a: Scene, b: Scene, c: Scene)
    requires Grows(a, b) && Grows(b, c) && Ages(a, b) && Ages(b, c) && Stands(a, b) && Stands(b, c)
    ensures Stands(a, c)
  {
    if a.leases != [] && IsUp(a.instances, a.leases[0].provider) && c.counts.calls == a.counts.calls {
      var owner := a.leases[0].provider;
      if !(owner in b.instances && b.instances[owner] == a.instances[owner]) {
        GoneForGood(a, b, c, owner);
      }
    }
  }

  /** A process that is no longer up does not come up again. */
  lemma GoneForGood(a: Scene, b: Scene, c: Scene, key: string)
    requires Grows(a, b) && Grows(b, c) && Ages(a, b) && Ages(b, c)
    requires IsUp(a.instances, key) && !(key in b.instances && b.instances[key] == a.instances[key])
    ensures !(key in c.instances && c.instances[key] == a.instances[key])
  {
    if key in c.instances {
      assert Follows(key, b.instances, b.generations, c.instances[key]);
      if key in b.instances {
        assert Follows(key, a.instances, a.generations, b.instances[key]);
      }
    }
  }

  lemma LentThen(preferred: Option<string>, a: Scene, b: Scene, c: Scene)
    requires Grows(a, b) && Grows(b, c) && Lent(preferred, a, b) && Lent(preferred, b, c)
    ensures Lent(preferred, a, c)
  {
    forall l | l in c.leases ensures LentTo(preferred, a, c, l) {
      assert LentTo(preferred, b, c, l);
      if l in b.leases {
        assert LentTo(preferred, a, b, l);
      }
    }
  }

  /** Who held the role later held it before, or may have taken it. */
  lemma HoldersThen(preferred: Option<string>, a: Scene, b: Scene, key: string)
    requires Lent(preferred, a, b) && key in Providers(b.leases)
    ensures key in Providers(a.leases) || MayTake(preferred, a, b, key)
  {
    var j :| 0 <= j < |b.leases| && Providers(b.leases)[j] == key;
    var l := b.leases[j];
    assert LentTo(preferred, a, b, l);
    if l in a.leases {
      var i :| 0 <= i < |a.leases| && a.leases[i] == l;
      assert Providers(a.leases)[i] == key;
    }
  }

  /** Blame for what happened later is blame for all of it. */
  lemma BlamedThen(preferred: Option<string>, a: Scene, b: Scene, c: Scene, key: string)
    requires Grows(a, b) && Grows(b, c) && Lent(preferred, a, b) && Blamed(preferred, b, c, key)
    ensures Blamed(preferred, a, c, key)
  {
    if key in Providers(b.leases) {
      HoldersThen(preferred, a, b, key);
    }
  }

  lemma HeldThen(preferred: Option<string>, a: Scene, b: Scene, c: Scene)
    requires Grows(a, b) && Grows(b, c) && Lent(preferred, a, b) && Held(preferred, a, b) && Held(preferred, b, c)
    ensures Held(preferred, a, c)
  {
    hide Lent, Grows;
    StillBlamed(preferred, a, b, c);
    forall k | k in c.locked && k !in a.locked ensures Blamed(preferred, a, c, k) {
      if k !in b.locked { BlamedThen(preferred, a, b, c, k); }
    }
    forall w | w in c.watched && w !in a.watched ensures Blamed(preferred, a, c, w.0) {
      if w !in b.watched { BlamedThen(preferred, a, b, c, w.0); }
    }
  }

  lemma StillBlamed(preferred: Option<string>, a: Scene, b: Scene, c: Scene)
    requires Grows(a, b) && Grows(b, c)
    ensures forall k :: Blamed(preferred, a, b, k) ==> Blamed(preferred, a, c, k)
  {
  }

  lemma StrangersThen(keys: set<string>, preferred: Option<string>, a: Scene, b: Scene)
    requires Strangers(keys, preferred, a) && b.leases == a.leases
    ensures Strangers(keys, preferred, b)
  {
  }

  lemma SeatsThen(keys: set<string>, preferred: Option<string>, a: Scene, b: Scene, c: Scene)
    requires Flows(a, b) && Flows(b, c) && Seats(keys, preferred, a, b) && Seats(keys, preferred, b, c)
    requires Still(keys, a, b)
    ensures Seats(keys, preferred, a, c)
  {
    hide Drift, Ages, Lent, Stands, Held, Strangers;
    StandsThen(a, b, c);
    LentThen(preferred, a, b, c);
    HeldThen(preferred, a, b, c);
    if Strangers(keys, preferred, a) && b.leases == a.leases && Apart(keys, a.instances, b.instances) {
      StrangersThen(keys, preferred, a, b);
      StrangersSee(keys, preferred, a, b);
    }
  }

  lemma PassesThen(keys: set<string>, preferred: Option<string>, a: Scene, b: Scene, c: Scene)
    requires Passes(keys, preferred, a, b) && Passes(keys, preferred, b, c)
    ensures Passes(keys, preferred, a, c)
  {
    hide Drift, Ages, Seats, Still;
    FlowsThen(a, b, c);
    StillThen(keys, a, b, c);
    SeatsThen(keys, preferred, a, b, c);
  }

  /** A task may be said to handle more than it does. */
  lemma Widen(few: set<string>, many: set<string>, preferred: Option<string>, a: Scene, b: Scene)
    requires Passes(few, preferred, a, b) && few <= many
    ensures Passes(many, preferred, a, b)
  {
    hide Flows, Stands, Lent, Held;
  }

  lemma PassesParts(keys: set<string>, preferred: Option<string>, a: Scene, b: Scene)
    requires Passes(keys, preferred, a, b)
    ensures Flows(a, b) && Still(keys, a, b) && Lent(preferred, a, b) && Held(preferred, a, b)
    ensures Runs(a, b)
  {
    hide Drift, Ages, Still, Stands, Lent, Held;
  }

  lemma Widened(few: set<string>, many: set<string>, preferred: Option<string>, a: Scene, b: Scene, c: Scene)
    requires Passes(many, preferred, a, b) && Passes(few, preferred, b, c) && few <= many
    ensures Passes(many, preferred, a, c)
  {
    hide Passes;
    Widen(few, many, preferred, b, c);
    PassesThen(many, preferred, a, b, c);
  }

  /** What a wait leaves as it was if nothing stirred. */
  lemma StoodBy(preferred: Option<string>, a: Scene, b: Scene, key: string)
    requires Passes({}, preferred, a, b)
    ensures b.counts.stirs == a.counts.stirs ==>
      && b.leases == a.leases && b.exited == a.exited && b.locked == a.locked && b.watched == a.watched
      && b.quarantined == a.quarantined && (key in b.instances <==> key in a.instances)
      && (key in a.instances ==> b.instances[key] == a.instances[key])
      && (key in b.stopping ==> key in a.stopping || (ShowerOf(a) == Some(key) && !Peaceful(a, b)))
      && (Peaceful(a, b) ==> b.stopping == a.stopping)
  {
    hide Flows, Stands, Lent, Held;
    if b.counts.stirs == a.counts.stirs {
      ApartAt({}, a.instances, b.instances, key);
    }
  }

  lemma Nothing(keys: set<string>, preferred: Option<string>, a: Scene)
    requires Sound(a)
    ensures Passes(keys, preferred, a, a)
  {
  }

  /** Time alone changes nothing, nor does the quarantine or the stopping of somebody else, if it counts as stirring. */
  lemma Ticks(keys: set<string>, preferred: Option<string>, a: Scene, tick: nat)
    requires Sound(a) && tick >= a.tick
    ensures Passes(keys, preferred, a, a.(tick := tick))
  {
  }

  lemma Stirs(preferred: Option<string>, a: Scene, b: Scene)
    requires Sound(a) && b == a.(counts := a.counts.(stirs := a.counts.stirs + 1))
    ensures Passes({}, preferred, a, b)
  {
    assert Drift(a, b) && Ages(a, b);
  }

  /** What counts as stirring may do more at the same moment: quarantine somebody, let a process exit, stop somebody. */
  lemma Stirred(keys: set<string>, preferred: Option<string>, a: Scene, b: Scene, c: Scene)
    requires Passes(keys, preferred, a, b) && b.counts.stirs > a.counts.stirs && b.condemned <= c.condemned
    requires c == b.(quarantined := c.quarantined, condemned := c.condemned, exited := c.exited, stopping := c.stopping)
    requires b.exited <= c.exited && Dated(c.exited, c.generations)
    ensures Passes({}, preferred, a, c)
  {
    hide Drift;
    assert Drift(a, b);
    DriftSame(a, b, c);
    assert Stands(a, c) && Ages(a, c);
    forall l | l in c.leases ensures LentTo(preferred, a, c, l) {
      assert LentTo(preferred, a, b, l);
    }
    forall k | k in c.locked && k !in a.locked ensures Blamed(preferred, a, c, k) {
      assert Blamed(preferred, a, b, k);
    }
    forall w | w in c.watched && w !in a.watched ensures Blamed(preferred, a, c, w.0) {
      assert Blamed(preferred, a, b, w.0);
    }
  }

  lemma DriftSame(a: Scene, b: Scene, c: Scene)
    requires a.losses <= b.losses && Drift(a, b) && c.outage == b.outage && c.losses == b.losses && c.counts == b.counts
    ensures Drift(a, c)
  {
  }

  // ---- Single steps ----

  /** A component gives back what it holds. */
  lemma GivesUp(preferred: Option<string>, a: Scene, b: Scene, key: string)
    requires b.leases == Others(a.leases, key) && Apart({key}, a.instances, b.instances)
    ensures Lent(preferred, a, b) && (Strangers({key}, preferred, a) ==> b.leases == a.leases)
    ensures a.leases != [] && a.leases[0].provider != key ==>
      b.leases != [] && b.leases[0] == a.leases[0] && |b.leases| <= |a.leases|
  {
    OthersFacts(a.leases, key);
    if key !in Providers(a.leases) { OthersAll(a.leases, key); }
  }

  /** The outage after one more loss. */
  ghost predicate OneMoreLoss(a: Scene, b: Scene) {
    && b.losses == a.losses + 1 && b.nextId >= a.nextId && b.outage.Some? && b.outage.value.allowed == {}
    && (a.outage.Some? ==> Later(a.outage.value, b.outage.value, 1))
    && (a.outage.None? ==> b.outage.value.id >= a.nextId && b.outage.value.revision == 1)
  }

  lemma LossIsMore(a: Scene, b: Scene)
    requires OneMoreLoss(a, b)
    ensures b.losses > a.losses
  {
  }

  lemma LossSeen(a: Scene, b: Scene, c: Scene)
    requires OneMoreLoss(a, b) && c.outage == b.outage && c.nextId == b.nextId && c.losses == b.losses
    ensures OneMoreLoss(a, c)
  {
  }

  /** The provider that shows the display fails; whoever handles that may wait for this task. */
  lemma OwnerFails(preferred: Option<string>, a: Scene, b: Scene, key: string, stage: Stage)
    requires Sound(a) && Sound(b) && a.leases != [] && a.leases[0].provider == key && key in a.instances
    requires Rank(stage) >= 2 && Rank(stage) >= Rank(a.instances[key].stage) && OneMoreLoss(a, b)
    requires b == a.(outage := b.outage, nextId := b.nextId, losses := b.losses, quarantined := b.quarantined,
                     leases := Others(a.leases, key), elsewhere := b.elsewhere,
                     instances := a.instances[key := a.instances[key].(stage := stage)], exited := b.exited,
                     locked := b.locked, watched := b.watched, counts := b.counts)
    requires b.elsewhere <= a.elsewhere && a.exited <= b.exited
    requires a.locked <= b.locked <= a.locked + {key} && a.watched <= b.watched
    requires forall w :: w in b.watched && w !in a.watched ==> w.0 == key
    requires b.counts == a.counts.(stirs := a.counts.stirs + 1)
    ensures Passes({}, preferred, a, b)
  {
    hide Others, Lent, Strangers;
    assert Providers(a.leases)[0] == key;
    assert Drift(a, b) && Ages(a, b);
    GivesUp(preferred, a, b, key);
  }

  /** Another process fails. */
  lemma OtherFails(preferred: Option<string>, a: Scene, b: Scene, key: string, stage: Stage)
    requires Sound(a) && Sound(b) && (a.leases != [] ==> a.leases[0].provider != key) && key in a.instances
    requires Rank(stage) >= 2 && Rank(stage) >= Rank(a.instances[key].stage)
    requires b == a.(leases := Others(a.leases, key), elsewhere := b.elsewhere,
                     instances := a.instances[key := a.instances[key].(stage := stage)], exited := b.exited,
                     counts := b.counts)
    requires b.elsewhere <= a.elsewhere && a.exited <= b.exited
    requires b.counts == a.counts.(stirs := a.counts.stirs + 1)
    ensures Passes({}, preferred, a, b)
  {
    hide Others, Lent, Strangers;
    assert Drift(a, b) && Ages(a, b);
    GivesUp(preferred, a, b, key);
  }

  /** The exit of a process that does not show the display is seen by the task that handles the component. */
  lemma OneSeen(preferred: Option<string>, a: Scene, b: Scene, key: string)
    requires Sound(a) && (a.leases != [] ==> a.leases[0].provider != key) && key in a.instances
    requires b == a.(leases := Others(a.leases, key), elsewhere := b.elsewhere, quarantined := b.quarantined,
                     condemned := b.condemned, instances := a.instances[key := a.instances[key].(stage := Over)],
                     tick := b.tick)
    requires b.elsewhere <= a.elsewhere && b.tick >= a.tick && a.condemned <= b.condemned
    requires a.quarantined <= b.quarantined <= a.quarantined + {key}
    ensures Passes({key}, preferred, a, b)
  {
    hide Others, Lent, Strangers;
    assert Drift(a, b) && Ages(a, b);
    GivesUp(preferred, a, b, key);
  }

  /** A process comes up, and may take the role. */
  lemma OneComes(preferred: Option<string>, a: Scene, b: Scene, key: string)
    requires Sound(a) && Sound(b) && Grown(a.generations, b.generations)
    requires IsUp(b.instances, key) && Apart({key}, a.instances, b.instances)
    requires key in a.instances && a.instances[key].stage == Up ==> b.instances == a.instances
    requires Follows(key, a.instances, a.generations, b.instances[key])
    requires b == a.(leases := b.leases, instances := b.instances, generations := b.generations,
                     counts := b.counts, tick := b.tick)
    requires b.tick >= a.tick && b.counts == a.counts.(stirs := b.counts.stirs) && b.counts.stirs >= a.counts.stirs
    requires b.leases == a.leases || (a.leases == [] && preferred == Some(key) && |b.leases| == 1 &&
                                      b.leases[0].provider == key)
    ensures Passes({key}, preferred, a, b)
  {
    assert Drift(a, b) && Ages(a, b);
  }

  /** A start that does not come up, or not yet: nothing happens, or there is a new process. */
  lemma OneStays(preferred: Option<string>, a: Scene, b: Scene, key: string)
    requires Sound(a) && Sound(b) && Grown(a.generations, b.generations)
    requires !IsUp(a.instances, key) && Apart({key}, a.instances, b.instances)
    requires key in b.instances ==>
      (key in a.instances && b.instances == a.instances) || Newer(key, b.instances[key].generation, a.generations)
    requires b == a.(instances := b.instances, generations := b.generations, quarantined := b.quarantined,
                     condemned := b.condemned, tick := b.tick)
    requires b.tick >= a.tick && a.condemned <= b.condemned
    requires a.quarantined <= b.quarantined <= a.quarantined + {key}
    ensures Passes({key}, preferred, a, b)
  {
    assert Drift(a, b) && Ages(a, b);
  }

  /** A process is removed, with what it holds. */
  lemma OneStops(preferred: Option<string>, a: Scene, b: Scene, key: string)
    requires Sound(a)
    requires b == a.(instances := a.instances - {key}, leases := Others(a.leases, key), elsewhere := b.elsewhere,
                     counts := b.counts, tick := b.tick)
    requires b.elsewhere <= a.elsewhere && b.tick >= a.tick
    requires b.counts == a.counts.(stirs := b.counts.stirs, pulled := b.counts.pulled)
    requires b.counts.stirs >= a.counts.stirs && b.counts.pulled >= a.counts.pulled
    requires a.leases != [] && a.leases[0].provider == key ==> b.counts.pulled > a.counts.pulled
    ensures Passes({key}, preferred, a, b)
  {
    hide Others, Lent, Strangers;
    assert Drift(a, b) && Ages(a, b);
    GivesUp(preferred, a, b, key);
  }

  /** A call to the display role gives it to somebody who is up, or takes it from somebody. */
  lemma RoleCalled(preferred: Option<string>, a: Scene, b: Scene, key: string)
    requires Sound(a) && b == a.(leases := b.leases, elsewhere := b.elsewhere, counts := b.counts)
    requires b.elsewhere <= a.elsewhere
    requires b.counts == a.counts.(stirs := a.counts.stirs + 1, calls := a.counts.calls + 1)
    requires forall l :: l in b.leases ==> l in a.leases || (l.provider == key && IsUp(a.instances, key))
    ensures Passes({}, preferred, a, b)
  {
    assert Drift(a, b) && Ages(a, b);
  }

  /** Somebody stops the provider that shows the display: it will be taken down when this task is done. */
  lemma OwnerStopped(preferred: Option<string>, a: Scene, b: Scene)
    requires Sound(a) && OneMoreLoss(a, b)
    requires b == a.(outage := b.outage, nextId := b.nextId, losses := b.losses, stopping := b.stopping,
                     counts := b.counts)
    requires b.counts == a.counts.(taken := a.counts.taken + 1)
    requires forall k :: k in b.stopping ==> k in a.stopping || ShowerOf(a) == Some(k)
    ensures Passes({}, preferred, a, b)
  {
    assert Drift(a, b) && Ages(a, b);
  }

  /** Nothing but so many stops of the provider that shows the display. */
  ghost predicate OnlyTaken(a: Scene, b: Scene, n: nat) {
    b == a.(outage := b.outage, nextId := b.nextId, losses := a.losses + n, stopping := b.stopping,
            counts := a.counts.(taken := a.counts.taken + n))
  }

  /** Somebody is let through the fence, or no longer. */
  lemma FenceMoves(keys: set<string>, preferred: Option<string>, a: Scene, b: Scene)
    requires Sound(a) && SameOutage(a.outage, b.outage)
    requires b == a.(outage := b.outage, admissions := b.admissions, counts := b.counts)
    requires a.admissions <= b.admissions
    requires b.counts == a.counts.(opens := b.counts.opens) && b.counts.opens >= a.counts.opens
    requires b.counts.opens == a.counts.opens && Sealed(a.outage) ==> Sealed(b.outage)
    ensures Passes(keys, preferred, a, b)
  {
    assert Drift(a, b) && Ages(a, b);
  }

  /** The display is lost by what this task does itself. */
  lemma LosesItself(a: Scene, b: Scene)
    requires Sound(a) && Sound(b) && OneMoreLoss(a, b) && b.generations == a.generations
    requires b == a.(outage := b.outage, nextId := b.nextId, losses := b.losses, quarantined := b.quarantined,
                     leases := b.leases, elsewhere := b.elsewhere, instances := b.instances)
    requires b.elsewhere <= a.elsewhere && Ages(a, b)
    ensures Flows(a, b)
  {
    assert Drift(a, b);
  }

  /** It sees that the process has exited which shows the display. */
  lemma LosesSeeing(a: Scene, b: Scene, key: string)
    requires Sound(a) && Sound(b) && OneMoreLoss(a, b) && key in a.instances
    requires b == a.(outage := b.outage, nextId := b.nextId, losses := b.losses, quarantined := b.quarantined,
                     leases := b.leases, elsewhere := b.elsewhere,
                     instances := a.instances[key := a.instances[key].(stage := Over)])
    requires b.elsewhere <= a.elsewhere
    ensures Flows(a, b)
  {
    assert Ages(a, b);
    LosesItself(a, b);
  }

  /** The role changes hands, or quarantines are lifted; nothing else is touched. */
  lemma FlowsLeases(a: Scene, b: Scene, leases: seq<Lease>)
    requires Flows(a, b)
    ensures Flows(a, b.(leases := leases)) && Flows(a.(leases := leases), b)
  {
    hide Drift;
    assert Drift(a, b);
    DriftSame(a, b, b.(leases := leases));
    DriftFrom(a, a.(leases := leases), b);
  }

  /** Whatever happened, nothing may have happened. */
  lemma FlowsSame(a: Scene, b: Scene)
    requires Flows(a, b)
    ensures Flows(a, a)
  {
    assert Drift(a, a) && Ages(a, a);
  }

  lemma NoEarlier(a: Scene, b: Scene)
    requires Runs(a, b)
    ensures a.tick <= b.tick
  {
  }

  lemma FlowsEnd(a: Scene, b: Scene)
    requires Flows(a, b)
    ensures Flows(b, b)
  {
    assert Drift(b, b) && Ages(b, b);
  }

  lemma FlowsQuarantine(a: Scene, b: Scene, quarantined: set<string>)
    requires Flows(a, b)
    ensures Flows(a, b.(quarantined := quarantined))
  {
    hide Drift;
    assert Drift(a, b);
    DriftSame(a, b, b.(quarantined := quarantined));
  }

  lemma FlowsStopping(a: Scene, b: Scene, stopping: set<string>)
    requires Flows(a, b)
    ensures Flows(a, b.(stopping := stopping)) && Flows(a.(stopping := stopping), b)
  {
    hide Drift;
    assert Drift(a, b);
    DriftSame(a, b, b.(stopping := stopping));
    DriftFrom(a, a.(stopping := stopping), b);
  }

  lemma DriftFrom(a: Scene, c: Scene, b: Scene)
    requires a.losses <= b.losses && Drift(a, b) && c.outage == a.outage && c.losses == a.losses && c.counts == a.counts
    requires c.nextId == a.nextId
    ensures Drift(c, b)
  {
  }

  // ---- What a task may conclude ----

  /** If the process that took the role still owns the display, then, unless the role was called, it has held it ever
      since, and the display was lost only to stops of that provider. */
  lemma StillShown(keys: set<string>, preferred: Option<string>, a: Scene, b: Scene, key: string)
    requires Passes(keys, preferred, a, b) && |a.leases| == 1 && a.leases[0].provider == key && IsUp(a.instances, key)
    requires b.leases != [] && b.leases[0].provider == key && key in b.instances
    requires b.instances[key].generation == a.instances[key].generation
    ensures IsUp(b.instances, key) && b.instances[key] == a.instances[key]
    ensures b.counts.calls == a.counts.calls ==>
      b.leases == a.leases && b.losses - a.losses == b.counts.taken - a.counts.taken
  {
    hide Flows, Still, Held;
    assert LentTo(preferred, a, b, b.leases[0]);
  }

  /** The display was lost only to stops of its provider, the role was not called, and no process that showed the
      display was removed. */
  ghost predicate Unbroken(a: Scene, b: Scene) {
    && b.losses - a.losses == b.counts.taken - a.counts.taken && b.counts.calls == a.counts.calls
    && b.counts.pulled == a.counts.pulled
  }

  /** Unless the display was lost, the role called or the process removed, the display is shown as before. */
  lemma NotLost(keys: set<string>, preferred: Option<string>, a: Scene, b: Scene, key: string)
    requires Passes(keys, preferred, a, b) && |a.leases| == 1 && a.leases[0].provider == key && IsUp(a.instances, key)
    ensures Unbroken(a, b) ==>
      b.leases == a.leases && key in b.instances && b.instances[key] == a.instances[key]
  {
    hide Flows, Still, Lent, Held;
  }

  /** A record that was looked at is still continued. */
  lemma StillContinues(a: Scene, b: Scene, o: Option<Outage>)
    requires Flows(a, b) && Continued(o, a.outage)
    ensures Continued(o, b.outage)
  {
    hide Ages;
    if o.Some? {
      ContinuesTransitive(o.value, a.outage.value, b.outage.value);
    }
  }

  ghost predicate Continued(o: Option<Outage>, now: Option<Outage>) {
    o.Some? ==> now.Some? && Continues(o.value, now.value)
  }

  lemma QuietOutage(keys: set<string>, a: Scene, b: Scene)
    requires Flows(a, b) && Still(keys, a, b)
    ensures Peaceful(a, b) ==> SameOutage(a.outage, b.outage) && b.losses == a.losses
  {
    hide Ages;
  }

  /** While an outage goes on, its revision counts the losses: going back to an earlier record lowers it exactly if the
      display was lost since. */
  lemma RevisionCountsLosses(a: Scene, b: Scene)
    requires Flows(a, b) && a.outage.Some?
    ensures b.outage.Some? && b.outage.value.id == a.outage.value.id
    ensures b.outage.value.revision == a.outage.value.revision + (b.losses - a.losses)
    ensures a.outage.value.revision < b.outage.value.revision <==> a.losses < b.losses
  {
  }

  /** A process found later, if not the same as before, is of a new generation. */
  lemma Renews(a: Scene, b: Scene, key: string)
    requires Flows(a, b) && key in b.instances
    requires key in a.instances ==> b.instances[key].generation != a.instances[key].generation
    ensures Newer(key, b.instances[key].generation, a.generations)
  {
    assert Follows(key, a.instances, a.generations, b.instances[key]);
  }

  /** What is new stays new. */
  lemma StaysNew(a: Scene, b: Scene, c: Scene, key: string)
    requires Flows(a, b) && Flows(b, c)
    requires key in b.instances ==> Newer(key, b.instances[key].generation, a.generations)
    ensures key in c.instances ==> Newer(key, c.instances[key].generation, a.generations)
  {
    hide Drift;
    if key in c.instances {
      assert Follows(key, b.instances, b.generations, c.instances[key]);
    }
  }

  function GenerationIn(instances: map<string, Instance>, key: string): Option<nat> {
    if key in instances then Some(instances[key].generation) else None
  }

  lemma OriginalIsNumbered(a: Scene, b: Scene, key: string)
    requires Flows(a, b)
    ensures var original := GenerationIn(a.instances, key);
      original.Some? ==> key in b.generations && original.value <= b.generations[key]
  {
    hide Drift, Ages;
  }

  lemma Replaced(a: Scene, b: Scene, key: string)
    requires Flows(a, b)
    requires GenerationIn(a.instances, key).Some? ==> GenerationIn(b.instances, key) != GenerationIn(a.instances, key)
    ensures key in b.instances ==> Newer(key, b.instances[key].generation, a.generations)
  {
    if key in b.instances {
      Renews(a, b, key);
    }
  }

  /** What a stop comes to, with other tasks running before and after it. */
  lemma StopTakesEffect(key: string, generation: nat, good: bool, preferred: Option<string>,
                        a: Scene, b: Scene, c: Scene, d: Scene)
    requires Passes({}, preferred, a, b) && Passes({key}, preferred, b, c) && Passes({}, preferred, c, d)
    requires key in a.generations && generation <= a.generations[key]
    requires good ==> GenerationIn(c.instances, key) != Some(generation)
    ensures Passes({key}, preferred, a, d)
    ensures good ==> GenerationIn(d.instances, key) != Some(generation)
  {
    hide Drift, Still, Seats;
    Widen({}, {key}, preferred, a, b);
    PassesThen({key}, preferred, a, b, c);
    Widened({}, {key}, preferred, a, c, d);
    if key in d.instances {
      assert Follows(key, c.instances, c.generations, d.instances[key]);
    }
  }

  /** A second, quiet step leaves the session as it was. */
  lemma QuietSession(keys: set<string>, preferred: Option<string>, a: Scene, b: Scene, c: Scene, other: Option<string>)
    requires Flows(a, b) && Passes(keys, preferred, b, c) && Strangers(keys, preferred, b)
    ensures Flows(a, c)
    ensures Peaceful(b, c) ==> c.leases == b.leases
    ensures Peaceful(b, c) && SameOutage(a.outage, b.outage) ==> SameOutage(a.outage, c.outage)
    ensures Peaceful(b, c) && other.Some? && other.value !in keys && IsUp(b.instances, other.value) ==>
      IsUp(c.instances, other.value)
  {
    hide Ages, Stands, Lent, Held, Strangers;
    FlowsThen(a, b, c);
    if Peaceful(b, c) && other.Some? && other.value !in keys {
      ApartAt(keys, b.instances, c.instances, other.value);
    }
  }

  /** What a quiet step leaves as it was. */
  lemma QuietFacts(keys: set<string>, a: Scene, b: Scene, other: Option<string>)
    requires Flows(a, b) && Still(keys, a, b) && (other.Some? ==> other.value !in keys)
    ensures Peaceful(a, b) ==> SameOutage(a.outage, b.outage) && b.losses == a.losses
    ensures Peaceful(a, b) && other.Some? && IsUp(a.instances, other.value) ==> IsUp(b.instances, other.value)
  {
    hide Ages;
    if Peaceful(a, b) && other.Some? {
      ApartAt(keys, a.instances, b.instances, other.value);
    }
  }

  lemma ApartItself(keys: set<string>, a: map<string, Instance>)
    ensures Apart(keys, a, a)
  {
  }

  lemma ApartAt(keys: set<string>, a: map<string, Instance>, b: map<string, Instance>, k: string)
    requires Apart(keys, a, b) && k !in keys
    ensures (k in a <==> k in b) && (k in a ==> b[k] == a[k])
  {
  }

  lemma {:induction false} OthersAll(s: seq<Lease>, provider: string)
    requires provider !in Providers(s)
    ensures Others(s, provider) == s
  {
    if s != [] {
      assert Providers(s)[0] == s[0].provider;
      assert forall k :: 0 <= k < |s| - 1 ==> Providers(s[1..])[k] == Providers(s)[k+1];
      OthersAll(s[1..], provider);
    }
  }
}
