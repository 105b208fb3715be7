/** Why a component that waits is waiting, and how an idle timer can outlive its component. */
module NativeProgress {
  import opened RuntimePlanModel
  import opened DependencyGraph
  import opened NativeState
  import opened NativeSteps
  import opened NativeSupervisor
  import opened PlanGraphCheck
  import opened PlanText
  import opened PlanRecords
  import opened PlanFormat

  predicate OnItsWay(s: RunState) {
    s == Starting || s == Backoff || s == Stopping
  }

  /** Waiting components, each ordered after the next, up to one that is starting, backing off or stopping. */
  ghost predicate HeldUp(plan: seq<ComponentPlan>, runtime: seq<Runtime>, chain: seq<nat>) {
    && |plan| == |runtime| && chain != []
    && (forall k :: 0 <= k < |chain| ==> chain[k] < |plan|)
    && (forall k :: 0 <= k < |chain| - 1 ==> runtime[chain[k]].state == Waiting)
    && (forall k :: 0 < k < |chain| ==> plan[chain[k]].id in plan[chain[k-1]].after)
    && OnItsWay(runtime[chain[|chain|-1]].state)
  }

  ghost predicate HasChain(plan: seq<ComponentPlan>, runtime: seq<Runtime>, i: nat) {
    exists chain :: HeldUp(plan, runtime, chain) && chain[0] == i
  }

  /** A waiting component that cannot be started is ordered after one that is waiting or on its way. */
  lemma Blocker(plan: seq<ComponentPlan>, runtime: seq<Runtime>, i: nat) returns (j: nat)
    requires NoneEligible(plan, runtime) && DependenciesKnown(plan)
    requires i < |plan| && runtime[i].state == Waiting
    ensures j < |plan| && plan[j].id in plan[i].after && (runtime[j].state == Waiting || OnItsWay(runtime[j].state))
  {
    assert !DependenciesReady(plan, runtime, i);
    var d :| d in plan[i].after && var k := IndexOf(plan, d);
      !(k.Some? && (var s := runtime[k.value].state; s == Ready || s == Stopped || s == Failed));
    assert d in Ids(plan);
    var n :| 0 <= n < |plan| && Ids(plan)[n] == d;
    assert plan[n].id == d;
    j := IndexOf(plan, d).value;
  }

  lemma Extend(plan: seq<ComponentPlan>, runtime: seq<Runtime>, i: nat, j: nat)
    requires |plan| == |runtime| && i < |plan| && j < |plan|
    requires runtime[i].state == Waiting && plan[j].id in plan[i].after && HasChain(plan, runtime, j)
    ensures HasChain(plan, runtime, i)
  {
    var chain :| HeldUp(plan, runtime, chain) && chain[0] == j;
    var longer := [i] + chain;
    assert forall k :: 0 < k < |longer| ==> longer[k] == chain[k-1];
    assert longer[|longer|-1] == chain[|chain|-1];
    assert HeldUp(plan, runtime, longer);
  }

  /** Whoever waits without such a chain is ordered after somebody else who does. */
  lemma HopelessTogether(plan: seq<ComponentPlan>, runtime: seq<Runtime>, i: nat) returns (j: nat)
    requires NoneEligible(plan, runtime) && DependenciesKnown(plan)
    requires i < |plan| && runtime[i].state == Waiting && !HasChain(plan, runtime, i)
    ensures j < |plan| && plan[j].id in plan[i].after && runtime[j].state == Waiting && !HasChain(plan, runtime, j)
  {
    hide DependenciesKnown, DependenciesReady;
    j := Blocker(plan, runtime, i);
    if OnItsWay(runtime[j].state) {
      assert HeldUp(plan, runtime, [j]) && [j][0] == j;
    }
    if HasChain(plan, runtime, j) {
      Extend(plan, runtime, i, j);
    }
  }

  ghost function Hopeless(plan: seq<ComponentPlan>, runtime: seq<Runtime>): set<string>
    requires |plan| == |runtime|
  {
    set k | 0 <= k < |plan| && runtime[k].state == Waiting && !HasChain(plan, runtime, k) :: plan[k].id
  }

  /** When nothing more can be started, whoever still waits does so, directly or not, for a component that is
      starting, backing off or stopping. This is where the plan being acyclic matters. */
  lemma WaitingIsHeldUp(plan: seq<ComponentPlan>, runtime: seq<Runtime>, i: nat)
    requires NoneEligible(plan, runtime) && UniqueIds(plan) && DependenciesKnown(plan) && !Cyclic(AfterGraph(plan))
    requires i < |plan| && runtime[i].state == Waiting
    ensures HasChain(plan, runtime, i)
  {
    hide HasChain, DependenciesReady, DependenciesKnown, UniqueIds, Cyclic;
    if !HasChain(plan, runtime, i) {
      var s := Hopeless(plan, runtime);
      assert plan[i].id in s;
      forall v | v in s ensures v in AfterGraph(plan) && WaitsFor(AfterGraph(plan)[v], s) {
        var k :| 0 <= k < |plan| && runtime[k].state == Waiting && !HasChain(plan, runtime, k) && plan[k].id == v;
        var j := HopelessTogether(plan, runtime, k);
        assert plan[k] in plan;
        GraphEntry(plan, plan[k]);
        assert plan[j].id in s;
      }
      StuckIsCyclic(AfterGraph(plan), s);
    }
  }

  // ---- Plans as they are read ----

  /** What the parser lets through, the supervisor can run: limits, known references, no cycle. */
  lemma ParsedIsSupported(text: string)
    requires ParsePlan(text).Some?
    ensures var cs := ParsePlan(text).value.components;
      && (forall c :: c in cs ==> Supported(c))
      && UniqueIds(cs) && DependenciesKnown(cs) && !Cyclic(AfterGraph(cs))
  {
    hide ComponentsAt, ProfileAt, GoodLines, DecodeGrace, ProfileKnown, UniqueIds, DependenciesKnown, Cyclic,
         AfterGraph, HasCritical, DependenciesDistinct, Supported;
    var lines := LinesOf(text);
    var two := lines[0] == HEADER_V2;
    ComponentsSupported(ProfileAt(lines[2..], two).value.1, two, MAX_COMPONENTS);
  }

  lemma {:induction false} ComponentsSupported(lines: seq<string>, two: bool, room: nat)
    ensures var cs := ComponentsAt(lines, two, room); cs.Some? ==> forall c :: c in cs.value ==> Supported(c)
    decreases |lines|
  {
    hide BodyAt, HeaderOk;
    if lines != [] && room > 0 && ComponentAt(lines, two).Some? {
      var c := ComponentAt(lines, two).value;
      HeaderSupported(lines, two);
      ComponentsSupported(c.1, two, room - 1);
    }
  }

  lemma HeaderSupported(lines: seq<string>, two: bool)
    requires ComponentAt(lines, two).Some?
    ensures Supported(ComponentAt(lines, two).value.0)
  {
    hide ExtraAt, Records, DecodeHeader;
    DecodedHeaderOk(lines[0], two);
  }

  /** When all that can be started from a plan that was read has been started, whoever still waits is held up by a
      component that is starting, backing off or stopping. */
  method StartPlan(core: Core, ghost text: string)
    requires core.Valid() && ParsePlan(text).Some? && core.plan == ParsePlan(text).value.components
    modifies core
    ensures core.Valid()
    ensures !core.shuttingDown ==> AllHeldUp(core.plan, core.runtime)
  {
    hide *;
    ParsedIsSupported(text);
    core.StartEligible();
    if !core.shuttingDown {
      WaitingAreHeldUp(core.plan, core.runtime);
    }
  }

  ghost predicate AllHeldUp(plan: seq<ComponentPlan>, runtime: seq<Runtime>) {
    |runtime| == |plan| && forall i :: 0 <= i < |plan| && runtime[i].state == Waiting ==> HasChain(plan, runtime, i)
  }

  lemma WaitingAreHeldUp(plan: seq<ComponentPlan>, runtime: seq<Runtime>)
    requires NoneEligible(plan, runtime) && UniqueIds(plan) && DependenciesKnown(plan) && !Cyclic(AfterGraph(plan))
    ensures AllHeldUp(plan, runtime)
  {
    hide HasChain, DependenciesReady, DependenciesKnown, UniqueIds, Cyclic;
    forall i | 0 <= i < |plan| && runtime[i].state == Waiting ensures HasChain(plan, runtime, i) {
      WaitingIsHeldUp(plan, runtime, i);
    }
  }

  // ---- An idle timer that is left behind ----

  /** A supervisor of one ready on-demand component, whose channel is open and to which one call is delivered. */
  ghost predicate OneCallInFlight(core: Core, c: ComponentPlan)
    reads core
  {
    && core.plan == [c] && !core.shuttingDown
    && core.runtime == [Runtime(Ready, 1, 1, 1, 0, None, false, false)] && core.busy == [Busy(1, None, None)]
    && core.pending == [PendingCall(1, 1, 1, 0, 1, 5000, true)] &&
       core.sessions == map[1 := PublicPeer, 2 := ComponentPeer(0, 1)]
  }

  /** Every invariant holds in such a state. */
  lemma IdleTimerCanOutliveReady(c: ComponentPlan)
    requires Supported(c) && c.lifecycle == OnDemand && c.idleTimeoutMs > 0
    ensures var runtime, busy := [Runtime(Ready, 1, 1, 1, 0, None, false, false)], [Busy(1, None, None)];
      var pending := [PendingCall(1, 1, 1, 0, 1, 5000, true)];
      && RecordsInv([c], runtime, busy, pending, [[]], [0], 1)
      && CallsInv(map[1 := Acceptance(1, 1, 0, 5000)], pending, [], {}, 2)
      && SessionsInv(1, map[1 := PublicPeer, 2 := ComponentPeer(0, 1)], {}, 3, pending, None)
      && StopInv(runtime, false, false, [], None, [])
  {
    var runtime, pending := [Runtime(Ready, 1, 1, 1, 0, None, false, false)], [PendingCall(1, 1, 1, 0, 1, 5000, true)];
    assert pending[..0] == [] && [0][..0] == [];
    assert Delivered(pending, 0) == 1 && Starts([0], 0) == 1;
    assert StartedAs(runtime[0], [0], 0);
    assert pending[0].forwardedId == 1 && IsPending(pending, 1);
  }

  /** There the exit of the component leaves its idle timer armed, unless it is fatal: the component is not ready, and
      its timer is for a process that is gone. */
  method ExitLeavesTimer(core: Core, c: ComponentPlan)
    requires core.Valid() && OneCallInFlight(core, c) && c.lifecycle == OnDemand && c.idleTimeoutMs > 0
    requires !Fatal(c, core.runtime[0], false, core.world(core.tick))
    modifies core
    ensures core.Valid() && |core.busy| == |core.runtime| == 1
    ensures core.busy[0].idleTimer.Some? && core.runtime[0].state != Ready && core.runtime[0].pid <= 0
  {
    core.OnChildExit(0, 1, 1, false);
  }
}
