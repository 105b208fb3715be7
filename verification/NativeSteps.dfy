/** What the single steps of the native supervisor preserve: one small lemma per
    kind of change to the records, so that each method of the class only has to
    say which steps it takes. */
module NativeSteps {
  import opened RuntimePlanModel
  import opened DependencyGraph
  import opened NativeState

  lemma RestartsAt(plan: seq<ComponentPlan>, runtime: seq<Runtime>, busy: seq<Busy>, pending: seq<PendingCall>,
                   delays: seq<seq<nat>>, starts: seq<nat>, i: nat)
    requires RecordsInv(plan, runtime, busy, pending, delays, starts, i) && i < |plan|
    ensures |delays| == |plan| == |runtime| == |busy| && RestartsOk(plan[i], runtime[i], delays[i])
  {
  }

  lemma OneMoreRestart(c: ComponentPlan, r: Runtime, r': Runtime, d: seq<nat>, delay: nat)
    requires RestartsOk(c, r, d) && r.restartCount < c.restartLimit && r'.restartCount == r.restartCount + 1
    requires delay == BackoffDelay(c, r.restartCount + 1)
    ensures RestartsOk(c, r', d + [delay])
  {
  }

  /** No dependency of component `i` is still on its way. `after` orders, it does not activate:
      a dependency that is stopped or failed does not block. */
  predicate DependenciesReady(plan: seq<ComponentPlan>, runtime: seq<Runtime>, i: nat)
    requires |plan| == |runtime| && i < |plan|
  {
    forall d :: d in plan[i].after ==>
      var k := IndexOf(plan, d);
      k.Some? && (var s := runtime[k.value].state; s == Ready || s == Stopped || s == Failed)
  }

  /** A waiting component was started when these were the states: nothing it is ordered after was on its way up, or
      stopping. */
  ghost predicate OrderlyStart(plan: seq<ComponentPlan>, i: nat, states: seq<RunState>) {
    && |states| == |plan| && i < |plan| && states[i] == Waiting
    && forall d :: d in plan[i].after ==> exists k :: 0 <= k < |plan| && plan[k].id == d && Settled(states[k])
  }

  predicate Settled(s: RunState) {
    s != Waiting && s != Starting && s != Backoff && s != Stopping
  }

  ghost predicate OrderlyStarts(plan: seq<ComponentPlan>, starts: seq<nat>, seen: seq<seq<RunState>>) {
    |seen| == |starts| && forall k :: 0 <= k < |starts| ==> OrderlyStart(plan, starts[k], seen[k])
  }

  function States(runtime: seq<Runtime>): (r: seq<RunState>)
    ensures |r| == |runtime| && forall k :: 0 <= k < |r| ==> r[k] == runtime[k].state
  {
    seq(|runtime|, k requires 0 <= k < |runtime| => runtime[k].state)
  }

  lemma OneMoreStart(plan: seq<ComponentPlan>, runtime: seq<Runtime>, starts: seq<nat>, seen: seq<seq<RunState>>,
                     i: nat)
    requires OrderlyStarts(plan, starts, seen) && |runtime| == |plan| && i < |plan|
    requires runtime[i].state == Waiting && DependenciesReady(plan, runtime, i)
    ensures OrderlyStarts(plan, starts + [i], seen + [States(runtime)])
  {
    hide OrderlyStart;
    assert OrderlyStart(plan, i, States(runtime)) by { OrderlyNow(plan, runtime, i); }
  }

  lemma OrderlyNow(plan: seq<ComponentPlan>, runtime: seq<Runtime>, i: nat)
    requires |runtime| == |plan| && i < |plan| && runtime[i].state == Waiting && DependenciesReady(plan, runtime, i)
    ensures OrderlyStart(plan, i, States(runtime))
  {
    forall d | d in plan[i].after
      ensures exists k :: 0 <= k < |plan| && plan[k].id == d && Settled(States(runtime)[k])
    {
      var k := IndexOf(plan, d).value;
      assert Settled(States(runtime)[k]);
    }
  }

  /** Nothing that waits could be started. */
  ghost predicate NoneEligible(plan: seq<ComponentPlan>, runtime: seq<Runtime>) {
    |plan| == |runtime| && forall i :: 0 <= i < |plan| ==>
      runtime[i].state != Waiting || !DependenciesReady(plan, runtime, i)
  }

  lemma WaitsAt(runtime: seq<Runtime>, i: nat)
    requires i < |runtime| && runtime[i].state == Waiting
    ensures i in WaitingIn(runtime)
  {
  }

  /** A starting component turns ready: only the calls waiting for it and its idle timer are still to be seen to. */
  lemma TurnsReady(plan: seq<ComponentPlan>, runtime: seq<Runtime>, busy: seq<Busy>, pending: seq<PendingCall>,
                   delays: seq<seq<nat>>, starts: seq<nat>, i: nat, r: Runtime)
    requires RecordsInv(plan, runtime, busy, pending, delays, starts, |plan|) && i < |plan|
    requires runtime[i].state == Starting
    requires r == runtime[i].(state := Ready)
    ensures BusyInv(plan, runtime[i := r], busy, pending)
    ensures LifeInv(plan, runtime[i := r], delays, starts, |plan|)
    ensures Unstranded(runtime[i := r], pending, i) && FreshIdle(runtime[i := r], busy, i)
  {
    RuntimeStep(plan, runtime, busy, pending, i, r);
    assert StartedAs(runtime[i], starts, i) && RestartsOk(plan[i], runtime[i], delays[i]) &&
           LifeAt(runtime[i], delays[i]);
  }

  /** ...and once they have been, the records are in order again. */
  lemma ServesNow(plan: seq<ComponentPlan>, runtime: seq<Runtime>, before: seq<Busy>, busy: seq<Busy>,
                  pending: seq<PendingCall>,
                  delays: seq<seq<nat>>, starts: seq<nat>, i: nat)
    requires BusyInv(plan, runtime, busy, pending) && LifeInv(plan, runtime, delays, starts, |plan|)
    requires Unstranded(runtime, pending, |plan|) && FreshIdle(runtime, before, i)
    requires IdleMoves(runtime, before, busy) && i < |busy|
    ensures var after := busy[i := busy[i].(idleTimer := IdleAfter(plan[i], runtime[i], busy[i].inflight))];
      RecordsInv(plan, runtime, after, pending, delays, starts, |plan|)
  {
    IdleStep(plan, runtime, busy, pending, i, IdleAfter(plan[i], runtime[i], busy[i].inflight));
  }

  lemma ReadyInOrder(runtime: seq<Runtime>, shuttingDown: bool, done: bool, order: seq<nat>, current: Option<nat>,
                     log: seq<nat>, i: nat, r: Runtime)
    requires StopInv(runtime, shuttingDown, done, order, current, log) && i < |runtime| && runtime[i].state == Starting
    requires r == runtime[i].(state := Ready)
    ensures StopInv(runtime[i := r], shuttingDown, done, order, current, log)
    ensures WaitingIn(runtime[i := r]) == WaitingIn(runtime)
  {
    StopKeeps(runtime, shuttingDown, done, order, current, log, i, r);
  }

  lemma SettledAt(plan: seq<ComponentPlan>, runtime: seq<Runtime>, before: seq<Busy>, after: seq<Busy>, i: nat)
    requires AllSettle(plan, runtime, before, after) && i < |after| && before[i].idleTimer == None
    requires after[i].inflight == 0
    ensures after[i].idleTimer.Some? <==> ReadyAndIdleable(plan[i], runtime[i]) && before[i].inflight > 0
    ensures after[i].idleTimer.Some? ==> after[i].idleTimer == Some(runtime[i].generation)
  {
    assert Settles(plan[i], runtime[i], before[i], after[i]);
  }

  /** History may be written down. */
  lemma Leaves(plan: seq<ComponentPlan>, runtime: seq<Runtime>, busy: seq<Busy>, pending: seq<PendingCall>,
               delays: seq<seq<nat>>, starts: seq<nat>, except: nat, i: nat, calls: nat)
    requires RecordsInv(plan, runtime, busy, pending, delays, starts, except) && i < |busy| && busy[i].idleTimer.Some?
    requires busy[i].idleTimer == Some(runtime[i].generation) && ReadyAndIdleable(plan[i], runtime[i]) && calls > 0
    ensures var after := busy[i].(left := Some(Leaving(runtime[i], calls)));
      RecordsInv(plan, runtime, busy[i := after], pending, delays, starts, except) && LeftBehind(plan[i], after)
  {
  }

  lemma LeftAlone(a: seq<Runtime>, b: seq<Runtime>, before: seq<Busy>, after: seq<Busy>, i: nat)
    requires Quieter(a, b) && QuietStays(b, before, after) && i < |a| && a[i].pid <= 0 && before[i].inflight == 0
    ensures i < |b| == |after| && b[i].pid <= 0 && after[i] == before[i]
  {
  }

  /** A component without calls has lost its process for good. */
  lemma Gone(plan: seq<ComponentPlan>, runtime: seq<Runtime>, busy: seq<Busy>, pending: seq<PendingCall>,
             delays: seq<seq<nat>>, starts: seq<nat>, i: nat, r: Runtime)
    requires RecordsInv(plan, runtime, busy, pending, delays, starts, i) && i < |plan| && NoCallsTo(pending, i)
    requires r.generation == runtime[i].generation && r.startSequence == runtime[i].startSequence
    requires r.restartCount == runtime[i].restartCount && r.restartTimer == None && r.pid <= 0 && r.state == Stopped
    requires Leavable(plan[i], runtime[i], busy[i])
    ensures RecordsInv(plan, runtime[i := r], busy, pending, delays, starts, |plan|)
  {
    assert RestartsOk(plan[i], runtime[i], delays[i]);
    assert delays[i := delays[i]] == delays;
    Replace(plan, runtime, busy, pending, delays, starts, i, r, delays[i]);
  }

  /** The stop sequence loses a process. */
  lemma StopLoses(runtime: seq<Runtime>, done: bool, order: seq<nat>, current: Option<nat>, log: seq<nat>, i: nat,
                  r: Runtime)
    requires StopInv(runtime, true, done, order, current, log) && i < |runtime| && runtime[i].pid > 0
    requires r.startSequence == runtime[i].startSequence && r.pid <= 0 && r.state == Stopped
    ensures current == Some(i) ==> !done && StopSequence(runtime[i := r], order, None, log)
    ensures current != Some(i) ==> StopInv(runtime[i := r], true, done, order, current, log)
    ensures WaitingIn(runtime) == WaitingIn(runtime[i := r]) == {}
  {
    StopGone(runtime, order, current, log, i, r);
  }

  lemma NoNewTransitive(a: seq<PendingCall>, b: seq<PendingCall>, c: seq<PendingCall>)
    requires NoNewCalls(a, b) && NoNewCalls(b, c)
    ensures NoNewCalls(a, c)
  {
  }

  /** A record in transition may change, as long as the start it stands for is the same. */
  lemma StillInTransition(plan: seq<ComponentPlan>, runtime: seq<Runtime>, busy: seq<Busy>, pending: seq<PendingCall>,
                          delays: seq<seq<nat>>, starts: seq<nat>, i: nat, r: Runtime)
    requires RecordsInv(plan, runtime, busy, pending, delays, starts, i) && i < |plan|
    requires r.generation == runtime[i].generation && r.startSequence == runtime[i].startSequence
    requires r.restartCount == runtime[i].restartCount && r.state == runtime[i].state
    ensures RecordsInv(plan, runtime[i := r], busy, pending, delays, starts, i)
  {
    assert StartedAs(runtime[i], starts, i) && RestartsOk(plan[i], runtime[i], delays[i]);
  }

  /** A waiting component is started. */
  lemma Started(plan: seq<ComponentPlan>, runtime: seq<Runtime>, busy: seq<Busy>, pending: seq<PendingCall>,
                delays: seq<seq<nat>>, starts: seq<nat>, i: nat, r: Runtime)
    requires RecordsInv(plan, runtime, busy, pending, delays, starts, |plan|) && i < |plan|
    requires runtime[i].state == Waiting
    requires r.generation == runtime[i].generation + 1 && r.startSequence == |starts| + 1
    requires r.restartCount == runtime[i].restartCount && r.state == Starting
    ensures RecordsInv(plan, runtime[i := r], busy, pending, delays, starts + [i], i)
    ensures LifeAt(runtime[i], delays[i])
  {
    NotServing(plan, runtime, busy, pending, i);
    RuntimeStep(plan, runtime, busy, pending, i, r);
    StartStep(plan, runtime, delays, starts, i, r);
  }

  /** A started component has a process. */
  lemma Launched(plan: seq<ComponentPlan>, runtime: seq<Runtime>, busy: seq<Busy>, pending: seq<PendingCall>,
                 delays: seq<seq<nat>>, starts: seq<nat>, i: nat, r: Runtime)
    requires RecordsInv(plan, runtime, busy, pending, delays, starts, i) && i < |plan|
    requires runtime[i].state == Starting && runtime[i].restartTimer == None && runtime[i].generation > 0
    requires r == runtime[i].(pid := r.pid) && r.pid > 0
    ensures RecordsInv(plan, runtime[i := r], busy, pending, delays, starts, |plan|)
  {
    NotServing(plan, runtime, busy, pending, i);
    assert RestartsOk(plan[i], runtime[i], delays[i]);
    assert delays[i := delays[i]] == delays;
    Replace(plan, runtime, busy, pending, delays, starts, i, r, delays[i]);
  }

  /** Before shutdown, a component leaves the waiting ones. */
  lemma Departed(runtime: seq<Runtime>, done: bool, order: seq<nat>, current: Option<nat>, log: seq<nat>, i: nat,
                 r: Runtime)
    requires StopInv(runtime, false, done, order, current, log) && i < |runtime| && !r.state.Waiting?
    ensures StopInv(runtime[i := r], false, done, order, current, log)
    ensures WaitingIn(runtime[i := r]) == WaitingIn(runtime) - {i}
  {
  }

  /** A live component is told to stop, before or during shutdown. */
  lemma LeavesReady(runtime: seq<Runtime>, shuttingDown: bool, done: bool, order: seq<nat>, current: Option<nat>,
                    log: seq<nat>, i: nat, r: Runtime)
    requires StopInv(runtime, shuttingDown, done, order, current, log) && i < |runtime| && !runtime[i].state.Waiting?
    requires r.pid == runtime[i].pid && r.startSequence == runtime[i].startSequence && r.state == Stopping
    ensures StopInv(runtime[i := r], shuttingDown, done, order, current, log)
    ensures WaitingIn(runtime[i := r]) == WaitingIn(runtime)
  {
    StopKeeps(runtime, shuttingDown, done, order, current, log, i, r);
  }

  lemma SessionOpens(n: nat, sessions: map<nat, Peer>, closed: set<nat>, nextSession: nat, pending: seq<PendingCall>,
                     peer: Peer)
    requires SessionsInv(n, sessions, closed, nextSession, pending, None)
    requires peer.ComponentPeer? ==> peer.component < n && peer.generation > 0
    ensures SessionsInv(n, sessions[nextSession := peer], closed, nextSession + 1, pending, None)
  {
  }

  /** Before shutdown, a component that is not waiting may change without disturbing the others. */
  lemma StillRunning(runtime: seq<Runtime>, done: bool, order: seq<nat>, current: Option<nat>, log: seq<nat>, i: nat,
                     r: Runtime)
    requires StopInv(runtime, false, done, order, current, log) && i < |runtime|
    requires !runtime[i].state.Waiting? && !r.state.Waiting?
    ensures StopInv(runtime[i := r], false, done, order, current, log)
    ensures WaitingIn(runtime[i := r]) == WaitingIn(runtime)
  {
  }

  ghost function WaitingIn(runtime: seq<Runtime>): set<nat> {
    set i | 0 <= i < |runtime| && runtime[i].state == Waiting
  }

  /** The first `k` components have been disarmed, and those that live are listed by start sequence. */
  ghost predicate Collected(runtime: seq<Runtime>, busy: seq<Busy>, order: seq<nat>, k: nat) {
    && k <= |runtime| == |busy|
    && ByStart(runtime, order)
    && (forall i :: i in order ==> i < k && runtime[i].pid > 0)
    && (forall i :: 0 <= i < k ==> busy[i].idleTimer == None)
    && (forall i :: 0 <= i < k ==> runtime[i].state != Waiting && runtime[i].state != Backoff)
    && (forall i :: 0 <= i < k && runtime[i].pid > 0 ==> i in order)
  }

  lemma CollectedNone(runtime: seq<Runtime>, busy: seq<Busy>)
    requires |runtime| == |busy|
    ensures Collected(runtime, busy, [], 0)
  {
  }

  lemma CollectLiveOne(plan: seq<ComponentPlan>, runtime: seq<Runtime>, busy0: seq<Busy>, busy: seq<Busy>,
                       pending: seq<PendingCall>,
                       delays: seq<seq<nat>>, starts: seq<nat>, order: seq<nat>, k: nat)
    requires RecordsInv(plan, runtime, busy, pending, delays, starts, |plan|)
    requires Collected(runtime, busy0, order, k) && k < |runtime| && runtime[k].pid > 0
    requires busy == busy0[k := busy0[k].(idleTimer := None)]
    ensures ByStart(runtime, order)
    ensures forall x :: x in order ==> x < |runtime| && runtime[x].startSequence != runtime[k].startSequence
    ensures Collected(runtime, busy, InsertByStart(runtime, order, k), k + 1)
  {
    forall x | x in order ensures x < |runtime| && runtime[x].startSequence != runtime[k].startSequence {
      DistinctStarts(plan, runtime, delays, starts, x, k);
    }
    assert LifeAt(runtime[k], delays[k]);
  }

  lemma CollectDeadOne(runtime: seq<Runtime>, busy0: seq<Busy>, busy: seq<Busy>, order: seq<nat>, k: nat, r: Runtime)
    requires Collected(runtime, busy0, order, k) && k < |runtime| && runtime[k].pid <= 0
    requires busy == busy0[k := busy0[k].(idleTimer := None)]
    requires r.pid == runtime[k].pid && r.startSequence == runtime[k].startSequence
    requires (r.state == Failed || r.state == Stopped)
    ensures Collected(runtime[k := r], busy, order, k + 1) && Quieter(runtime, runtime[k := r])
  {
  }

  lemma QuieterTransitive(a: seq<Runtime>, b: seq<Runtime>, c: seq<Runtime>)
    requires Quieter(a, b) && Quieter(b, c)
    ensures Quieter(a, c)
  {
  }

  lemma CollectedAll(runtime: seq<Runtime>, busy: seq<Busy>, order: seq<nat>)
    requires Collected(runtime, busy, order, |runtime|)
    ensures StopSequence(runtime, order, None, [])
    ensures forall i :: 0 <= i < |busy| ==> busy[i].idleTimer == None
  {
  }

  /** Nobody has become ready, and processes are as they were. */
  ghost predicate Quieter(a: seq<Runtime>, b: seq<Runtime>) {
    && |a| == |b|
    && (forall i :: 0 <= i < |b| ==> b[i].pid == a[i].pid)
    && (forall i :: 0 <= i < |b| && b[i].state == Ready ==> a[i].state == Ready)
  }

  /** A disarmed idle timer of a component that is not ready stays disarmed, and a component
      without a process and without calls is left alone. */
  ghost predicate QuietStays(runtime: seq<Runtime>, before: seq<Busy>, after: seq<Busy>) {
    && |runtime| == |before| == |after|
    && (forall i :: 0 <= i < |after| && runtime[i].state != Ready && before[i].idleTimer == None ==>
         after[i].idleTimer == None)
    && (forall i :: 0 <= i < |after| && runtime[i].pid <= 0 && before[i].inflight == 0 ==> after[i] == before[i])
  }

  lemma SettlingStaysQuiet(plan: seq<ComponentPlan>, runtime: seq<Runtime>, before: seq<Busy>, after: seq<Busy>)
    requires AllSettle(plan, runtime, before, after)
    ensures QuietStays(runtime, before, after)
  {
  }

  lemma SameRestarts(c: ComponentPlan, r: Runtime, r': Runtime, d: seq<nat>)
    requires RestartsOk(c, r, d) && r'.restartCount == r.restartCount
    ensures RestartsOk(c, r', d)
  {
  }

  lemma RecordsSizes(plan: seq<ComponentPlan>, runtime: seq<Runtime>, busy: seq<Busy>, pending: seq<PendingCall>,
                     delays: seq<seq<nat>>, starts: seq<nat>, except: nat)
    requires RecordsInv(plan, runtime, busy, pending, delays, starts, except)
    ensures |plan| == |runtime| == |busy| == |delays|
    ensures BusyInv(plan, runtime, busy, pending)
  {
  }

  lemma RecordsDisarm(plan: seq<ComponentPlan>, runtime: seq<Runtime>, busy: seq<Busy>, pending: seq<PendingCall>,
                      delays: seq<seq<nat>>, starts: seq<nat>, except: nat, i: nat)
    requires RecordsInv(plan, runtime, busy, pending, delays, starts, except) && i < |plan|
    ensures |busy| == |plan|
    ensures RecordsInv(plan, runtime, busy[i := busy[i].(idleTimer := None)], pending, delays, starts, except)
  {
    IdleStep(plan, runtime, busy, pending, i, None);
  }

  /** The records after calls have been dropped and their providers released. */
  lemma AfterClosing(plan: seq<ComponentPlan>, runtime: seq<Runtime>, busy0: seq<Busy>, pending0: seq<PendingCall>,
                     busy: seq<Busy>, pending: seq<PendingCall>, delays: seq<seq<nat>>, starts: seq<nat>, except: nat)
    requires RecordsInv(plan, runtime, busy0, pending0, delays, starts, except)
    requires BusyInv(plan, runtime, busy, pending) && AllSettle(plan, runtime, busy0, busy) && Fewer(pending0, pending)
    ensures RecordsInv(plan, runtime, busy, pending, delays, starts, except)
  {
    FewerKeeps(runtime, pending0, pending, except);
    SettlingKeepsFresh(plan, runtime, busy0, busy, except);
  }

  lemma FewerNoNew(a: seq<PendingCall>, b: seq<PendingCall>)
    requires Fewer(a, b)
    ensures NoNewCalls(a, b)
  {
  }

  /** A component that is not live is put to rest by the shutdown. */
  lemma Halted(plan: seq<ComponentPlan>, runtime: seq<Runtime>, busy: seq<Busy>, pending: seq<PendingCall>,
               delays: seq<seq<nat>>, starts: seq<nat>, k: nat, r: Runtime)
    requires RecordsInv(plan, runtime, busy, pending, delays, starts, |plan|) && k < |runtime| && runtime[k].pid <= 0
    requires r == runtime[k].(restartTimer := None, manualStop := r.manualStop, state := r.state)
    requires r.state == Stopped || (r.state == Failed && runtime[k].state == Failed)
    ensures RecordsInv(plan, runtime[k := r], busy, pending, delays, starts, |plan|)
  {
    InTransition(plan, runtime, busy, pending, delays, starts, k);
    NotServing(plan, runtime, busy, pending, k);
    assert delays[k := delays[k]] == delays;
    Replace(plan, runtime, busy, pending, delays, starts, k, r, delays[k]);
  }

  lemma StopPop(runtime: seq<Runtime>, order: seq<nat>, log: seq<nat>)
    requires StopSequence(runtime, order, None, log) && order != []
    ensures var i, rest := order[|order|-1], order[..|order|-1];
      && i < |runtime|
      && (runtime[i].pid <= 0 ==> StopSequence(runtime, rest, None, log))
      && StopSequence(runtime, rest, Some(i), log)
      && (log != [] ==> runtime[i].startSequence < log[|log|-1])
      && (forall k :: 0 <= k < |rest| ==>
           rest[k] < |runtime| && runtime[rest[k]].startSequence < runtime[i].startSequence)
  {
    var n := |order| - 1;
    assert order == order[..n] + [order[n]];
  }

  lemma StopSignalled(before: seq<Runtime>, runtime: seq<Runtime>, order: seq<nat>, i: nat, log: seq<nat>)
    requires StopSequence(before, order, Some(i), log) && i < |before| == |runtime| && before[i].pid > 0
    requires forall k :: 0 <= k < |order| ==>
      order[k] < |before| && before[order[k]].startSequence < before[i].startSequence
    requires log != [] ==> before[i].startSequence < log[|log|-1]
    requires runtime == before[i := runtime[i]] && runtime[i].state == Stopping
    requires runtime[i].pid == before[i].pid && runtime[i].startSequence == before[i].startSequence
    ensures StopInv(runtime, true, false, order, Some(i), log + [before[i].startSequence])
    ensures WaitingIn(runtime) == {}
  {
  }

  lemma StopFinished(runtime: seq<Runtime>, log: seq<nat>)
    requires StopSequence(runtime, [], None, log)
    ensures StopInv(runtime, true, true, [], None, log)
    ensures WaitingIn(runtime) == {}
  {
  }

  lemma NothingHappened(runtime: seq<Runtime>, busy: seq<Busy>, pending: seq<PendingCall>)
    requires |runtime| == |busy|
    ensures Fewer(pending, pending) && QuietStays(runtime, busy, busy) && Quieter(runtime, runtime)
  {
  }

  lemma StopIdle(runtime: seq<Runtime>, order: seq<nat>, current: Option<nat>, log: seq<nat>, done: bool)
    requires StopInv(runtime, false, done, order, current, log)
    ensures !done && current == None && log == []
  {
  }

  /** Each idle timer was left alone, disarmed, or armed for the running generation. */
  ghost predicate IdleMoves(runtime: seq<Runtime>, before: seq<Busy>, after: seq<Busy>) {
    && |runtime| == |before| == |after|
    && forall i :: 0 <= i < |after| ==>
         after[i].idleTimer == before[i].idleTimer || after[i].idleTimer == None ||
           after[i].idleTimer == Some(runtime[i].generation)
  }

  lemma MovesReflexive(runtime: seq<Runtime>, a: seq<Busy>)
    requires |runtime| == |a|
    ensures IdleMoves(runtime, a, a)
  {
  }

  lemma MovesTransitive(runtime: seq<Runtime>, a: seq<Busy>, b: seq<Busy>, c: seq<Busy>)
    requires IdleMoves(runtime, a, b) && IdleMoves(runtime, b, c)
    ensures IdleMoves(runtime, a, c)
  {
  }

  lemma SettlingMoves(plan: seq<ComponentPlan>, runtime: seq<Runtime>, a: seq<Busy>, b: seq<Busy>)
    requires AllSettle(plan, runtime, a, b)
    ensures IdleMoves(runtime, a, b)
  {
  }

  lemma MovesKeepFresh(runtime: seq<Runtime>, a: seq<Busy>, b: seq<Busy>, except: nat)
    requires IdleMoves(runtime, a, b) && FreshIdle(runtime, a, except)
    ensures FreshIdle(runtime, b, except)
  {
  }

  lemma FewerReflexive(a: seq<PendingCall>)
    ensures Fewer(a, a)
  {
  }

  lemma NoNewReflexive(a: seq<PendingCall>)
    ensures NoNewCalls(a, a)
  {
  }

  /** One call of `b` was delivered in place or removed. */
  ghost predicate OneStep(b: seq<PendingCall>, c: seq<PendingCall>, k: nat)
    requires k < |b|
  {
    c == Without(b, k) || (|c| == |b| && c[k].delivered &&
                           c == b[k := b[k].(delivered := true, providerGeneration := c[k].providerGeneration)])
  }

  lemma NoNewStep(a: seq<PendingCall>, b: seq<PendingCall>, c: seq<PendingCall>, k: nat)
    requires NoNewCalls(a, b) && k < |b| && OneStep(b, c, k)
    ensures NoNewCalls(a, c)
  {
  }

  lemma UnstrandedStep(runtime: seq<Runtime>, b: seq<PendingCall>, c: seq<PendingCall>, k: nat, except: nat)
    requires Unstranded(runtime, b, except) && k < |b| && OneStep(b, c, k)
    ensures Unstranded(runtime, c, except)
  {
    if c == Without(b, k) {
      assert forall j :: 0 <= j < |c| ==> c[j] == b[if j < k then j else j + 1];
    }
  }

  lemma NobodyWaits(runtime: seq<Runtime>, pending: seq<PendingCall>, i: nat, n: nat)
    requires Unstranded(runtime, pending, i)
    requires forall k :: 0 <= k < |pending| && pending[k].provider == i ==> pending[k].delivered
    ensures Unstranded(runtime, pending, n)
  {
  }

  lemma CallBound(accepted: map<nat, Acceptance>, pending: seq<PendingCall>, outbox: seq<Reply>, closed: set<nat>,
                  nextId: nat)
    requires CallsInv(accepted, pending, outbox, closed, nextId)
    ensures |pending| <= MAX_PENDING_CALLS
  {
  }

  lemma SessionsDelivered(n: nat, sessions: map<nat, Peer>, closed: set<nat>, nextSession: nat,
                          pending: seq<PendingCall>, k: nat, g: nat)
    requires SessionsInv(n, sessions, closed, nextSession, pending, None) && k < |pending|
    ensures SessionsInv(n, sessions, closed, nextSession,
                        pending[k := pending[k].(delivered := true, providerGeneration := g)], None)
  {
  }

  lemma SessionsLeaving(n: nat, sessions: map<nat, Peer>, closed: set<nat>, nextSession: nat,
                        pending: seq<PendingCall>, s: nat)
    requires SessionsInv(n, sessions, closed, nextSession, pending, None) && s in sessions
    ensures SessionsInv(n, sessions - {s}, closed + {s}, nextSession, pending, Some(s))
  {
  }

  lemma SessionsLeft(n: nat, sessions: map<nat, Peer>, closed: set<nat>, nextSession: nat, pending: seq<PendingCall>,
                     s: nat)
    requires SessionsInv(n, sessions, closed, nextSession, pending, Some(s))
    requires forall k :: 0 <= k < |pending| ==> pending[k].callerSession != s
    ensures SessionsInv(n, sessions, closed, nextSession, pending, None)
  {
  }

  lemma BusySizes(plan: seq<ComponentPlan>, runtime: seq<Runtime>, busy: seq<Busy>, pending: seq<PendingCall>)
    requires BusyInv(plan, runtime, busy, pending)
    ensures |plan| == |runtime| == |busy|
    ensures forall k :: 0 <= k < |pending| ==> pending[k].provider < |plan|
  {
  }

  lemma SessionsFewer(n: nat, sessions: map<nat, Peer>, closed: set<nat>, nextSession: nat,
                      a: seq<PendingCall>, b: seq<PendingCall>, leaving: Option<nat>)
    requires SessionsInv(n, sessions, closed, nextSession, a, leaving) && forall p :: p in b ==> p in a
    ensures SessionsInv(n, sessions, closed, nextSession, b, leaving)
  {
    forall k | 0 <= k < |b| ensures b[k].callerSession in sessions || leaving == Some(b[k].callerSession) {
      assert b[k] in b;
    }
  }

  lemma FewerTransitive(a: seq<PendingCall>, b: seq<PendingCall>, c: seq<PendingCall>)
    requires Fewer(a, b) && Fewer(b, c)
    ensures Fewer(a, c)
  {
  }

  // ---- Starting and stopping on request ----

  /** A component without a process is put to rest, before or during shutdown. */
  lemma RestsInOrder(runtime: seq<Runtime>, shuttingDown: bool, done: bool, order: seq<nat>, current: Option<nat>,
                     log: seq<nat>, i: nat, r: Runtime)
    requires StopInv(runtime, shuttingDown, done, order, current, log) && i < |runtime| && runtime[i].pid <= 0
    requires r.pid == runtime[i].pid && r.startSequence == runtime[i].startSequence && r.state == Stopped
    ensures StopInv(runtime[i := r], shuttingDown, done, order, current, log)
    ensures WaitingIn(runtime[i := r]) <= WaitingIn(runtime)
  {
    StopKeeps(runtime, shuttingDown, done, order, current, log, i, r);
  }

  /** A stopping component stays so. */
  lemma KeepsStopping(plan: seq<ComponentPlan>, runtime: seq<Runtime>, busy: seq<Busy>, pending: seq<PendingCall>,
                  delays: seq<seq<nat>>, starts: seq<nat>, i: nat, r: Runtime)
    requires RecordsInv(plan, runtime, busy, pending, delays, starts, |plan|) && i < |plan|
    requires runtime[i].state == Stopping
    requires r == runtime[i].(manualStop := r.manualStop)
    ensures RecordsInv(plan, runtime[i := r], busy, pending, delays, starts, |plan|)
  {
    InTransition(plan, runtime, busy, pending, delays, starts, i);
    assert delays[i := delays[i]] == delays;
    Replace(plan, runtime, busy, pending, delays, starts, i, r, delays[i]);
  }

  /** A component that is down waits again, with a fresh restart budget. */
  lemma Woken(plan: seq<ComponentPlan>, runtime: seq<Runtime>, busy: seq<Busy>, pending: seq<PendingCall>,
                  delays: seq<seq<nat>>, starts: seq<nat>, i: nat, r: Runtime)
    requires RecordsInv(plan, runtime, busy, pending, delays, starts, i) && i < |plan| && LifeAt(runtime[i], delays[i])
    requires runtime[i].state == Stopped || runtime[i].state == Failed
    requires r == runtime[i].(manualStop := r.manualStop, readinessFailed := r.readinessFailed, restartCount := 0,
                              state := Waiting)
    ensures RecordsInv(plan, runtime[i := r], busy, pending, delays[i := []], starts, |plan|)
  {
    NotServing(plan, runtime, busy, pending, i);
    Replace(plan, runtime, busy, pending, delays, starts, i, r, []);
  }

  /** A component in backoff waits again. */
  lemma Retried(plan: seq<ComponentPlan>, runtime: seq<Runtime>, busy: seq<Busy>, pending: seq<PendingCall>,
                  delays: seq<seq<nat>>, starts: seq<nat>, i: nat, r: Runtime)
    requires RecordsInv(plan, runtime, busy, pending, delays, starts, |plan|) && i < |plan|
    requires runtime[i].state == Backoff
    requires r == runtime[i].(restartTimer := None, state := Waiting)
    ensures RecordsInv(plan, runtime[i := r], busy, pending, delays, starts, |plan|)
  {
    InTransition(plan, runtime, busy, pending, delays, starts, i);
    NotServing(plan, runtime, busy, pending, i);
    assert delays[i := delays[i]] == delays;
    Replace(plan, runtime, busy, pending, delays, starts, i, r, delays[i]);
  }

  /** Before shutdown the stop sequence says nothing about the records. */
  lemma NotYet(a: seq<Runtime>, b: seq<Runtime>, done: bool, order: seq<nat>, current: Option<nat>, log: seq<nat>)
    requires StopInv(a, false, done, order, current, log)
    ensures StopInv(b, false, done, order, current, log)
  {
  }

  /** A component on its way up strands nobody. */
  lemma NoLongerHeld(plan: seq<ComponentPlan>, runtime: seq<Runtime>, busy: seq<Busy>, pending: seq<PendingCall>,
                  delays: seq<seq<nat>>, starts: seq<nat>, i: nat)
    requires RecordsInv(plan, runtime, busy, pending, delays, starts, i) && i < |plan| && LifeAt(runtime[i], delays[i])
    requires FreshIdle(runtime, busy, |plan|) && runtime[i].state != Ready && runtime[i].state != Failed
    ensures RecordsInv(plan, runtime, busy, pending, delays, starts, |plan|)
  {
  }

  lemma Fresh(plan: seq<ComponentPlan>, runtime: seq<Runtime>, busy: seq<Busy>, pending: seq<PendingCall>,
                  delays: seq<seq<nat>>, starts: seq<nat>)
    requires RecordsInv(plan, runtime, busy, pending, delays, starts, |plan|)
    ensures FreshIdle(runtime, busy, |plan|) && OnlyLast(runtime, pending)
  {
  }

  lemma Rearmed(plan: seq<ComponentPlan>, runtime: seq<Runtime>, busy: seq<Busy>, pending: seq<PendingCall>,
                  delays: seq<seq<nat>>, starts: seq<nat>, i: nat)
    requires RecordsInv(plan, runtime, busy, pending, delays, starts, |plan|) && i < |plan|
    ensures |busy| == |runtime| == |plan|
    ensures RecordsInv(plan, runtime, busy[i := busy[i].(idleTimer :=
                                                         IdleAfter(plan[i], runtime[i], busy[i].inflight))], pending,
                                                           delays, starts, |plan|)
  {
    IdleStep(plan, runtime, busy, pending, i, IdleAfter(plan[i], runtime[i], busy[i].inflight));
  }

  // ---- A new call ----

  /** Where a call is headed: an unknown kind of target, the catalog's candidates for a role or an
      interface, or a component by name. */
  datatype Target = Malformed | Listed(candidates: seq<nat>) | Named(component: Option<nat>)

  predicate ResolvedIn(target: Target, n: nat) {
    match target
    case Malformed => true
    case Listed(candidates) => forall c :: c in candidates ==> c < n
    case Named(component) => component.Some? ==> component.value < n
  }

  /** The candidate at `k` has not failed, and all before it have. */
  ghost predicate FirstAt(candidates: seq<nat>, runtime: seq<Runtime>, k: int) {
    && 0 <= k < |candidates| && candidates[k] < |runtime| && runtime[candidates[k]].state != Failed
    && forall j :: 0 <= j < k && candidates[j] < |runtime| ==> runtime[candidates[j]].state == Failed
  }

  function FirstUsable(candidates: seq<nat>, runtime: seq<Runtime>): (r: Option<nat>)
    ensures r.Some? ==> r.value in candidates && r.value < |runtime| && runtime[r.value].state != Failed
    ensures r.Some? ==> exists k :: FirstAt(candidates, runtime, k) && candidates[k] == r.value
    ensures r.None? ==> forall c :: c in candidates && c < |runtime| ==> runtime[c].state == Failed
  {
    if candidates == [] then None
    else if candidates[0] < |runtime| && runtime[candidates[0]].state != Failed then Some(candidates[0])
    else
      var r := FirstUsable(candidates[1..], runtime);
      if r.Some? then
        ghost var k :| FirstAt(candidates[1..], runtime, k) && candidates[1..][k] == r.value;
        assert forall j :: 1 <= j < k + 1 ==> candidates[j] == candidates[1..][j - 1];
        assert FirstAt(candidates, runtime, k + 1);
        r
      else r
  }

  function Resolve(target: Target, runtime: seq<Runtime>): Option<nat> {
    match target
    case Malformed => None
    case Listed(candidates) => FirstUsable(candidates, runtime)
    case Named(component) => component
  }

  /** May a call be given a forwarded id now? */
  predicate Admissible(pending: seq<PendingCall>, nextId: nat, deadline: Option<nat>, now: nat) {
    && (deadline.Some? ==> now < deadline.value <= now + MAX_CALL_TIMEOUT_MS)
    && |pending| < MAX_PENDING_CALLS && nextId != MAX_U64
  }

  /** Why a call due at `due` gets no forwarded id. */
  function Refusal(pending: seq<PendingCall>, nextId: nat, due: nat, now: nat): Option<string> {
    if due <= now then Some("CALL_TIMEOUT")
    else if due - now > MAX_CALL_TIMEOUT_MS then Some("BAD_DEADLINE")
    else if |pending| >= MAX_PENDING_CALLS || nextId == MAX_U64 then Some("ROUTER_BUSY")
    else None
  }

  /** Until when a call is due. */
  function Due(deadline: Option<nat>, now: nat): nat {
    if deadline.Some? then deadline.value else now + 5000
  }

  /** What the caller of a refused call is told. */
  function RefusalOf(target: Target, provider: Option<nat>, deadline: Option<nat>, now: nat): string {
    if target.Malformed? then "BAD_TARGET"
    else if provider.None? then "NO_PROVIDER"
    else if deadline.Some? && deadline.value <= now then "CALL_TIMEOUT"
    else if deadline.Some? && deadline.value > now + 300_000 then "BAD_DEADLINE"
    else "ROUTER_BUSY"
  }

  lemma RefusalSays(pending: seq<PendingCall>, nextId: nat, deadline: Option<nat>, now: nat, provider: nat)
    ensures var r := Refusal(pending, nextId, Due(deadline, now), now);
      && (r.None? <==> Admissible(pending, nextId, deadline, now))
      && (r.None? ==> |pending| < MAX_PENDING_CALLS && nextId != MAX_U64)
      && (r.Some? ==> r.value == RefusalOf(Named(Some(provider)), Some(provider), deadline, now))
  {
  }

  lemma IdBound(accepted: map<nat, Acceptance>, pending: seq<PendingCall>, outbox: seq<Reply>, closed: set<nat>,
                nextId: nat)
    requires CallsInv(accepted, pending, outbox, closed, nextId)
    ensures nextId <= MAX_U64 && nextId !in accepted
  {
  }

  lemma SessionsQueued(n: nat, sessions: map<nat, Peer>, closed: set<nat>, nextSession: nat,
                       pending: seq<PendingCall>, p: PendingCall)
    requires SessionsInv(n, sessions, closed, nextSession, pending, None) && p.callerSession in sessions
    ensures SessionsInv(n, sessions, closed, nextSession, pending + [p], None)
  {
  }

  /** Nobody is stranded but perhaps the last call. */
  ghost predicate OnlyLast(runtime: seq<Runtime>, pending: seq<PendingCall>) {
    forall k :: 0 <= k < |pending| - 1 && !pending[k].delivered && pending[k].provider < |runtime|
      ==> runtime[pending[k].provider].state != Ready && runtime[pending[k].provider].state != Failed
  }

  lemma Queued(plan: seq<ComponentPlan>, runtime: seq<Runtime>, busy: seq<Busy>, pending: seq<PendingCall>,
                  delays: seq<seq<nat>>, starts: seq<nat>, p: PendingCall)
    requires RecordsInv(plan, runtime, busy, pending, delays, starts, |plan|)
    requires p.provider < |plan| && !p.delivered && p.providerGeneration == 0
    ensures RecordsInv(plan, runtime, busy, pending + [p], delays, starts, p.provider)
    ensures OnlyLast(runtime, pending + [p])
  {
    QueueStep(plan, runtime, busy, pending, p);
  }

  lemma NoNewLast(a: seq<PendingCall>, b: seq<PendingCall>)
    requires NoNewCalls(a, b)
    ensures |b| <= |a|
    ensures |b| == |a| ==> forall k :: 0 <= k < |b| ==> b[k].forwardedId == a[k].forwardedId
  {
  }

  /** The last call was delivered or failed, and nobody is stranded. */
  lemma ServedLast(plan: seq<ComponentPlan>, runtime: seq<Runtime>, busy0: seq<Busy>, pending0: seq<PendingCall>,
                   busy: seq<Busy>, pending: seq<PendingCall>, delays: seq<seq<nat>>, starts: seq<nat>, i: nat)
    requires RecordsInv(plan, runtime, busy0, pending0, delays, starts, i) && i < |plan|
    requires LifeAt(runtime[i], delays[i])
    requires FreshIdle(runtime, busy0, |plan|) && OnlyLast(runtime, pending0) && pending0 != []
    requires BusyInv(plan, runtime, busy, pending) && IdleMoves(runtime, busy0, busy)
    requires OneStep(pending0, pending, |pending0| - 1)
    ensures RecordsInv(plan, runtime, busy, pending, delays, starts, |plan|)
  {
    MovesKeepFresh(runtime, busy0, busy, |plan|);
  }

  lemma LastGone(plan: seq<ComponentPlan>, runtime: seq<Runtime>, busy0: seq<Busy>, pending0: seq<PendingCall>,
                 busy: seq<Busy>, pending: seq<PendingCall>, delays: seq<seq<nat>>, starts: seq<nat>, i: nat)
    requires RecordsInv(plan, runtime, busy0, pending0, delays, starts, i) && i < |plan|
    requires LifeAt(runtime[i], delays[i])
    requires FreshIdle(runtime, busy0, |plan|) && OnlyLast(runtime, pending0) && pending0 != []
    requires BusyInv(plan, runtime, busy, pending) && AllSettle(plan, runtime, busy0, busy)
    requires pending == Without(pending0, |pending0| - 1)
    ensures RecordsInv(plan, runtime, busy, pending, delays, starts, |plan|)
  {
    SettlingMoves(plan, runtime, busy0, busy);
    ServedLast(plan, runtime, busy0, pending0, busy, pending, delays, starts, i);
  }

  // ---- Answers and timers ----

  lemma CallsDiffer(accepted: map<nat, Acceptance>, pending: seq<PendingCall>, outbox: seq<Reply>, closed: set<nat>,
                    nextId: nat)
    requires CallsInv(accepted, pending, outbox, closed, nextId)
    ensures forall j, k :: 0 <= j < k < |pending| ==> pending[j].forwardedId != pending[k].forwardedId
  {
  }

  lemma PeerGeneration(n: nat, sessions: map<nat, Peer>, closed: set<nat>, nextSession: nat,
                       pending: seq<PendingCall>, s: nat)
    requires SessionsInv(n, sessions, closed, nextSession, pending, None) && s in sessions
    ensures sessions[s].ComponentPeer? ==> sessions[s].component < n && sessions[s].generation > 0
  {
  }

  lemma CallerConnected(n: nat, sessions: map<nat, Peer>, closed: set<nat>, nextSession: nat,
                        pending: seq<PendingCall>, k: nat)
    requires SessionsInv(n, sessions, closed, nextSession, pending, None) && k < |pending|
    ensures pending[k].callerSession in sessions
  {
  }

  lemma UndeliveredGeneration(plan: seq<ComponentPlan>, runtime: seq<Runtime>, busy: seq<Busy>,
                              pending: seq<PendingCall>, k: nat)
    requires BusyInv(plan, runtime, busy, pending) && k < |pending|
    ensures !pending[k].delivered ==> pending[k].providerGeneration == 0
  {
  }

  lemma FewerWithout(pending: seq<PendingCall>, k: nat)
    requires k < |pending|
    ensures Fewer(pending, Without(pending, k))
  {
  }

  lemma DeliveredSome(pending: seq<PendingCall>, k: nat)
    requires k < |pending| && pending[k].delivered
    ensures Delivered(pending, pending[k].provider) > 0
  {
    DeliveredSplit(pending, k, pending[k].provider);
  }

  /** A ready component whose idle timer is armed has no call in flight. */
  lemma IdleMeansIdle(plan: seq<ComponentPlan>, runtime: seq<Runtime>, busy: seq<Busy>, pending: seq<PendingCall>,
                  delays: seq<seq<nat>>, starts: seq<nat>, i: nat)
    requires RecordsInv(plan, runtime, busy, pending, delays, starts, |plan|) && i < |plan| && busy[i].idleTimer.Some?
    ensures runtime[i].state == Ready ==>
      busy[i].idleTimer.value == runtime[i].generation && busy[i].inflight == 0 && NoDeliveredTo(pending, i)
  {
    if runtime[i].state == Ready {
      assert IdleOk(plan[i], runtime[i], busy[i]);
      forall k | 0 <= k < |pending| && pending[k].delivered ensures pending[k].provider != i {
        DeliveredSome(pending, k);
      }
    }
  }

  // ---- Failing the calls of a component ----

  /** The error that settles a call. */
  function ErrorTo(p: PendingCall, code: string): Reply {
    Reply(p.callerSession, p.callerRequest, Some(p.forwardedId), code)
  }

  lemma AtTheEnd(pending: seq<PendingCall>, p: PendingCall)
    requires pending != []
    ensures var n := |pending| - 1; Without(pending, n) == pending[..n] && pending[n := p] == pending[..n] + [p]
  {
  }

  /** What the caller is told when a ready provider cannot be given the call. */
  function Undeliverable(p: PendingCall, now: nat): Reply {
    ErrorTo(p, if p.deadlineMs <= now then "CALL_TIMEOUT" else "NO_PROVIDER_SOCKET")
  }

  predicate Concerns(p: PendingCall, i: nat, generation: nat) {
    p.provider == i && (!p.delivered || p.providerGeneration == generation)
  }

  /** The calls that a generation of a component has nothing to do with. */
  function Spared(pending: seq<PendingCall>, i: nat, generation: nat): (r: seq<PendingCall>)
    ensures forall p :: p in r <==> p in pending && !Concerns(p, i, generation)
  {
    if pending == [] then []
    else
      assert pending == [pending[0]] + pending[1..];
      (if Concerns(pending[0], i, generation) then [] else [pending[0]]) + Spared(pending[1..], i, generation)
  }

  /** What the callers of the others are told, in order. */
  function Failures(pending: seq<PendingCall>, i: nat, generation: nat): seq<Reply> {
    if pending == [] then []
    else (if Concerns(pending[0], i, generation) then [ErrorTo(pending[0], "PROVIDER_UNAVAILABLE")] else [])
         + Failures(pending[1..], i, generation)
  }

  lemma SparingStarts(pending: seq<PendingCall>, i: nat, generation: nat, outbox: seq<Reply>)
    ensures pending[0..] == pending
    ensures Spared(pending, i, generation) == pending[..0] + Spared(pending[0..], i, generation)
  {
    assert pending[0..] == pending && pending[..0] == [];
    assert [] + Spared(pending, i, generation) == Spared(pending, i, generation);
  }

  lemma SparedStep(pending: seq<PendingCall>, k: nat, i: nat, generation: nat)
    requires k < |pending|
    ensures Spared(pending[k..], i, generation)
         == (if Concerns(pending[k], i, generation) then [] else [pending[k]]) + Spared(pending[k+1..], i, generation)
    ensures Failures(pending[k..], i, generation)
         == (if Concerns(pending[k], i, generation) then [ErrorTo(pending[k], "PROVIDER_UNAVAILABLE")] else [])
            + Failures(pending[k+1..], i, generation)
  {
    hide Concerns;
    assert pending[k..][1..] == pending[k+1..] && pending[k..][0] == pending[k];
  }

  lemma WithoutHere(pending: seq<PendingCall>, k: nat)
    requires k < |pending|
    ensures Without(pending, k)[k..] == pending[k+1..] && Without(pending, k)[..k] == pending[..k]
  {
  }

  lemma SparingGoesOn(pending: seq<PendingCall>, k: nat, i: nat, generation: nat, outbox: seq<Reply>)
    requires k < |pending|
    ensures var rest := pending[k..]; var p := pending[k];
      if Concerns(p, i, generation)
      then
        && Without(pending, k)[k..] == pending[k+1..] && Without(pending, k)[..k] == pending[..k]
        && Spared(rest, i, generation) == Spared(pending[k+1..], i, generation)
        && outbox + Failures(rest, i, generation)
           == outbox + [ErrorTo(p, "PROVIDER_UNAVAILABLE")] + Failures(pending[k+1..], i, generation)
      else
        && pending[..k] + Spared(rest, i, generation) == pending[..k+1] + Spared(pending[k+1..], i, generation)
        && Failures(rest, i, generation) == Failures(pending[k+1..], i, generation)
  {
    hide Concerns, Spared, Failures, Without, ErrorTo;
    SparedStep(pending, k, i, generation);
    WithoutHere(pending, k);
    var p, more := pending[k], Spared(pending[k+1..], i, generation);
    if Concerns(p, i, generation) {
      assert [] + more == more;
    } else {
      assert pending[..k] + ([p] + more) == pending[..k+1] + more;
      assert [] + Failures(pending[k+1..], i, generation) == Failures(pending[k+1..], i, generation);
    }
  }

  /** Of the calls to a component, only those of another generation are spared. */
  lemma SparedOnly(pending: seq<PendingCall>, i: nat, generation: nat)
    ensures var rest := Spared(pending, i, generation);
      forall k :: 0 <= k < |rest| && rest[k].provider == i ==>
        rest[k].delivered && rest[k].providerGeneration != generation
  {
    var rest := Spared(pending, i, generation);
    forall k | 0 <= k < |rest| && rest[k].provider == i
      ensures rest[k].delivered && rest[k].providerGeneration != generation {
      assert rest[k] in rest;
    }
  }

  lemma SparingEnds(pending: seq<PendingCall>, i: nat, generation: nat, outbox: seq<Reply>)
    ensures var rest := pending[|pending|..];
      pending[..|pending|] + Spared(rest, i, generation) == pending && outbox + Failures(rest, i, generation) == outbox
  {
  }

  /** The calls somebody else made. */
  function NotFrom(pending: seq<PendingCall>, session: nat): (r: seq<PendingCall>)
    ensures forall p :: p in r <==> p in pending && p.callerSession != session
  {
    if pending == [] then []
    else
      assert pending == [pending[0]] + pending[1..];
      (if pending[0].callerSession == session then [] else [pending[0]]) + NotFrom(pending[1..], session)
  }

  /** What is left when a session has closed. */
  function AfterClose(pending: seq<PendingCall>, session: nat, peer: Peer): seq<PendingCall> {
    var rest := NotFrom(pending, session);
    if peer.ComponentPeer? then Spared(rest, peer.component, peer.generation) else rest
  }

  /** The sessions that are not a channel of this generation of the component. */
  function Unwired(sessions: map<nat, Peer>, i: nat, generation: nat): map<nat, Peer> {
    map s | s in sessions && sessions[s] != ComponentPeer(i, generation) :: sessions[s]
  }

  /** Calls to other components are left alone as long as their callers are connected. */
  ghost predicate OthersStay(a: seq<PendingCall>, b: seq<PendingCall>, i: nat, sessions: map<nat, Peer>) {
    forall p :: p in a && p.provider != i && p.callerSession in sessions ==> p in b
  }

  lemma OthersThen(a: seq<PendingCall>, b: seq<PendingCall>, c: seq<PendingCall>, i: nat, s: map<nat, Peer>,
                   t: map<nat, Peer>)
    requires OthersStay(a, b, i, s) && OthersStay(b, c, i, t) && t.Keys <= s.Keys
    ensures OthersStay(a, c, i, t)
  {
  }

  lemma OthersSpared(a: seq<PendingCall>, i: nat, generation: nat, sessions: map<nat, Peer>)
    ensures OthersStay(a, Spared(a, i, generation), i, sessions) && OthersStay(a, a, i, sessions)
  {
  }

  lemma OthersAfterClose(a: seq<PendingCall>, i: nat, generation: nat, session: nat, sessions: map<nat, Peer>)
    requires session !in sessions
    ensures OthersStay(a, AfterClose(a, session, ComponentPeer(i, generation)), i, sessions)
  {
  }

  lemma UnwiredKeys(sessions: map<nat, Peer>, i: nat, generation: nat)
    ensures Unwired(sessions, i, generation).Keys <= sessions.Keys
  {
  }

  /** What other callers are told then. */
  function Told(pending: seq<PendingCall>, session: nat, peer: Peer): seq<Reply> {
    if peer.ComponentPeer? then Failures(NotFrom(pending, session), peer.component, peer.generation) else []
  }

  lemma NobodyFrom(pending: seq<PendingCall>, session: nat)
    ensures var rest := NotFrom(pending, session); forall k :: 0 <= k < |rest| ==> rest[k].callerSession != session
  {
    var rest := NotFrom(pending, session);
    forall k | 0 <= k < |rest| ensures rest[k].callerSession != session { assert rest[k] in rest; }
  }

  /** The first `k` of the remaining calls have been looked at. */
  ghost predicate Dropping(all: seq<PendingCall>, pending: seq<PendingCall>, k: nat, session: nat) {
    k <= |pending| && NotFrom(all, session) == pending[..k] + NotFrom(pending[k..], session)
  }

  lemma DroppingStarts(pending: seq<PendingCall>, session: nat)
    ensures Dropping(pending, pending, 0, session)
  {
    assert pending[0..] == pending && pending[..0] == [];
    assert [] + NotFrom(pending, session) == NotFrom(pending, session);
  }

  lemma NotFromStep(pending: seq<PendingCall>, k: nat, session: nat)
    requires k < |pending|
    ensures NotFrom(pending[k..], session)
         == (if pending[k].callerSession == session then [] else [pending[k]]) + NotFrom(pending[k+1..], session)
  {
    assert pending[k..][1..] == pending[k+1..] && pending[k..][0] == pending[k];
  }

  lemma DroppingGoesOn(all: seq<PendingCall>, pending: seq<PendingCall>, k: nat, session: nat)
    requires k < |pending| && Dropping(all, pending, k, session)
    ensures if pending[k].callerSession == session then Dropping(all, Without(pending, k), k, session)
            else Dropping(all, pending, k + 1, session)
  {
    hide NotFrom, Without;
    NotFromStep(pending, k, session);
    WithoutHere(pending, k);
    var more := NotFrom(pending[k+1..], session);
    if pending[k].callerSession == session {
      assert [] + more == more;
    } else {
      assert pending[..k] + ([pending[k]] + more) == pending[..k+1] + more;
    }
  }

  lemma DroppingEnds(all: seq<PendingCall>, pending: seq<PendingCall>, session: nat)
    requires Dropping(all, pending, |pending|, session)
    ensures pending == NotFrom(all, session)
  {
  }

  // ---- What becomes of a component that went down ----

  predicate PolicyRestarts(c: ComponentPlan, failed: bool) {
    c.restart == Always || (c.restart == OnFailure && failed)
  }

  /** Does the exit of a component, outside shutdown, begin the shutdown? Here `armed` says whether a restart timer
      can be had. */
  predicate Fatal(c: ComponentPlan, r: Runtime, failed: bool, armed: bool) {
    !r.manualStop && if Restartable(c, r.(pid := -1, readinessFailed := false), failed) then !armed else c.critical
  }

  predicate Restartable(c: ComponentPlan, r: Runtime, failed: bool) {
    PolicyRestarts(c, failed) && r.restartCount < c.restartLimit
  }

  /** Its record when it goes into backoff, or stays down. */
  function Downed(c: ComponentPlan, r: Runtime, failed: bool): Runtime {
    if Restartable(c, r, failed)
    then r.(restartCount := r.restartCount + 1, state := Backoff,
            restartTimer := Some(RestartTimer(r.generation, BackoffDelay(c, r.restartCount + 1))))
    else r.(state := if failed then Failed else Stopped)
  }

  /** Its record after its process has exited, shutdown apart. */
  function Exited(c: ComponentPlan, r: Runtime, failed: bool): Runtime {
    if r.manualStop then r.(pid := -1, state := Stopped, manualStop := false, readinessFailed := false)
    else Downed(c, r.(pid := -1, readinessFailed := false), failed)
  }

  /** After its process has exited, a component goes into backoff if its policy asks for a restart and some are left,
      and otherwise stays down; one that was stopped by hand stays down whatever its policy. */
  lemma ExitedState(c: ComponentPlan, r: Runtime, failed: bool)
    ensures var s := Exited(c, r, failed).state;
      && (s == Backoff <==>
            && !r.manualStop && r.restartCount < c.restartLimit
            && (match c.restart case Never => false case OnFailure => failed case Always => true))
      && (s == Stopped <==> r.manualStop || (s != Backoff && !failed))
      && (s == Failed <==> !r.manualStop && s != Backoff && failed)
  {
  }

  /** Who has no process is left alone. */
  ghost predicate DeadStay(a: seq<Runtime>, b: seq<Runtime>) {
    |a| == |b| && forall i :: 0 <= i < |a| && a[i].pid <= 0 ==> b[i] == a[i]
  }

  ghost predicate SameDeadlines(a: seq<PendingCall>, b: seq<PendingCall>) {
    |a| == |b| && forall k :: 0 <= k < |a| ==> b[k].deadlineMs == a[k].deadlineMs
  }

  predicate OnItsWayUp(s: RunState) {
    s == Starting || s == Waiting || s == Backoff
  }

  /** A component that needs a pipe or a private channel gets it; a channel also needs the broker. */
  predicate ChannelMade(c: ComponentPlan, brokered: bool, made: bool) {
    (c.readiness == Fd ==> made) && (c.readiness == Mipc ==> brokered && made)
  }

  /** A component that was down waits to be started, with a fresh restart budget. */
  function Reset(runtime: seq<Runtime>, i: nat): seq<Runtime>
    requires i < |runtime|
  {
    runtime[i := runtime[i].(manualStop := false, readinessFailed := false, restartCount := 0, state := Waiting)]
  }

  /** What serving a call may change. */
  datatype View = View(runtime: seq<Runtime>, pending: seq<PendingCall>, outbox: seq<Reply>, starts: seq<nat>,
                       shuttingDown: bool)

  /** What becomes of a new call: a provider that is ready is given it at once, or its caller is told why not; one on
      its way up is waited for; one that is stopping, or any during shutdown, fails it; any other is woken for it. */
  ghost predicate Served(plan: seq<ComponentPlan>, a: View, p: PendingCall, b: View, now: nat, reachable: bool)
    requires p.provider < |plan| == |a.runtime|
  {
    var r := a.runtime[p.provider];
    if r.state == Ready then
      var sent := now < p.deadlineMs && reachable;
      && b.runtime == a.runtime
      && b.pending ==
         (if sent then a.pending + [p.(delivered := true, providerGeneration := r.generation)] else a.pending)
      && b.outbox == (if sent then a.outbox else a.outbox + [Undeliverable(p, now)])
    else if a.shuttingDown || r.state == Stopping then
      b.runtime == a.runtime && b.pending == a.pending &&
        b.outbox == a.outbox + [ErrorTo(p, "COMPONENT_UNAVAILABLE")]
    else if OnItsWayUp(r.state) then
      b.runtime == a.runtime && b.pending == a.pending + [p] && b.outbox == a.outbox
    else
      !b.shuttingDown ==>
        NoneEligible(plan, b.runtime) && Progressed(Reset(a.runtime, p.provider), a.starts, b.runtime, b.starts)
  }

  // ---- Starting only what waits ----

  /** Only components that waited and were started have changed. */
  ghost predicate StartsOnly(a: seq<Runtime>, b: seq<Runtime>, started: seq<nat>) {
    |a| == |b| && forall j :: 0 <= j < |a| ==> b[j] == a[j] || (a[j].state == Waiting && j in started)
  }

  ghost predicate Progressed(a: seq<Runtime>, before: seq<nat>, b: seq<Runtime>, after: seq<nat>) {
    before <= after && StartsOnly(a, b, after[|before|..])
  }

  lemma NoProgress(a: seq<Runtime>, starts: seq<nat>)
    ensures Progressed(a, starts, a, starts)
  {
  }

  lemma ProgressedThen(a: seq<Runtime>, s: seq<nat>, b: seq<Runtime>, t: seq<nat>, c: seq<Runtime>, u: seq<nat>)
    requires Progressed(a, s, b, t) && Progressed(b, t, c, u)
    ensures Progressed(a, s, c, u)
  {
    assert u[|s|..] == t[|s|..] + u[|t|..];
  }

  /** One waiting component was started, and nothing else happened. */
  lemma OnlyStarted(a: seq<Runtime>, s: seq<nat>, i: nat, b: seq<Runtime>)
    requires i < |a| && a[i].state == Waiting
    ensures |b| == |a| && b == a[i := b[i]] ==> Progressed(a, s, b, s + [i])
  {
    assert (s + [i])[|s|..] == [i];
  }

  /** A component that does not wait is not touched by starts. */
  lemma OthersProgress(a: seq<Runtime>, s: seq<nat>, b: seq<Runtime>, u: seq<nat>, i: nat)
    requires Progressed(a, s, b, u) && i < |a| && a[i].state != Waiting
    ensures |b| == |a| && b[i] == a[i]
  {
  }

  /** A waiting component was started, and then others were. */
  lemma StartedFirst(a: seq<Runtime>, s: seq<nat>, i: nat, r: Runtime, b: seq<Runtime>, u: seq<nat>)
    requires i < |a| && a[i].state == Waiting && Progressed(a[i := r], s + [i], b, u)
    ensures Progressed(a, s, b, u)
  {
    assert u[|s|..] == [i] + u[|s|+1..];
  }
}
