/** The native supervisor and its call router as one object.

    The two C++ classes call each other synchronously (the router activates a
    component, which may start, become ready and be handed the very call that
    woke it), so their fields are kept together here; `busy` holds the two fields of
    a component's record that the router drives. Reactor callbacks are the
    methods marked as events: they may be invoked in any order, any number of
    times and with any arguments. What the operating system answers (does a
    spawn, a send or a timer succeed, what time is it) is read from an arbitrary
    stream, `world` and `clock`. */
module NativeSupervisor {
  import opened RuntimePlanModel
  import opened DependencyGraph
  import opened NativeState
  import opened NativeSteps

  /** What the reactor reports, in the order it happens to report it. */
  datatype Event =
    | Boot
    | ChildExited(component: nat, generation: nat, pid: int, failed: bool)
    | BecameReady(component: nat, generation: nat)
    | FailedToBecomeReady(component: nat, generation: nat)
    | RestartDue(component: nat)
    | IdleTooLong(component: nat)
    | Called(session: nat, request: nat, target: Target, deadline: Option<nat>)
    | Answered(session: nat, id: nat, code: string)
    | CallDue(id: nat)
    | Connected
    | Disconnected(session: nat, notify: bool)
    | StartAsked(component: nat)
    | StopAsked(component: nat)
    | Used(component: nat)
    | Terminated(exitCode: int)

  class Core {
    const plan: seq<ComponentPlan>
    const brokered: bool
    const world: nat -> bool
    const clock: nat -> nat
    var tick: nat

    // The supervisor's part.
    var runtime: seq<Runtime>
    var busy: seq<Busy>
    var startSequence: nat
    var shuttingDown: bool
    var done: bool
    var exitCode: int
    var stopOrder: seq<nat>
    var stoppingIndex: Option<nat>

    // The router's part.
    var pending: seq<PendingCall>
    var nextForwardedId: nat

    // The broker's sessions, and what has been sent to them.
    var sessions: map<nat, Peer>
    var nextSession: nat
    var outbox: seq<Reply>

    // History: events handled; calls given a forwarded id; closed sessions; starts in order, and the states everybody
    // was in at each; restart delays since the last activation; start sequences in the order they were stopped.
    ghost var handled: seq<Event>
    ghost var accepted: map<nat, Acceptance>
    ghost var closed: set<nat>
    ghost var starts: seq<nat>
    ghost var seen: seq<seq<RunState>>
    ghost var delays: seq<seq<nat>>
    ghost var stopLog: seq<nat>

    ghost predicate RouterOk(leaving: Option<nat>)
      reads this
    {
      && CallsInv(accepted, pending, outbox, closed, nextForwardedId)
      && SessionsInv(|plan|, sessions, closed, nextSession, pending, leaving)
      && BusyInv(plan, runtime, busy, pending)
    }

    /** Everything but the stop sequence, with component `except` in transition. */
    ghost predicate Base(except: nat)
      reads this
    {
      && (forall i :: 0 <= i < |plan| ==> Supported(plan[i]))
      && CallsInv(accepted, pending, outbox, closed, nextForwardedId)
      && SessionsInv(|plan|, sessions, closed, nextSession, pending, None)
      && RecordsInv(plan, runtime, busy, pending, delays, starts, except)
      && startSequence == |starts| && OrderlyStarts(plan, starts, seen)
    }

    ghost predicate StopOk()
      reads this
    {
      StopInv(runtime, shuttingDown, done, stopOrder, stoppingIndex, stopLog)
    }

    /** What holds between two reactor callbacks. */
    ghost predicate Valid()
      reads this
    {
      Base(|plan|) && StopOk()
    }

    /** History only grows, no call is added, and nothing is started once shutdown has begun. */
    twostate predicate Advances()
      reads this
    {
      && old(starts) <= starts && old(outbox) <= outbox && old(stopLog) <= stopLog && old(closed) <= closed
      && (old(shuttingDown) ==> shuttingDown && starts == old(starts))
      && NoNewCalls(old(pending), pending)
      && WaitingIn(runtime) <= WaitingIn(old(runtime))
    }

    /** What every event does to the history: it only grows, forwarded ids are never given out
        twice, and shutdown is for good. */
    twostate predicate Evolves()
      reads this
    {
      && old(starts) <= starts && old(outbox) <= outbox && old(stopLog) <= stopLog && old(closed) <= closed
      && (old(shuttingDown) ==> shuttingDown && starts == old(starts))
      && old(nextForwardedId) <= nextForwardedId
      && (forall id :: id in old(accepted) ==> id in accepted && accepted[id] == old(accepted)[id])
      && (forall id :: id in accepted && id !in old(accepted) ==> old(nextForwardedId) <= id)
    }

    /** Valid, except that a call may have been left undelivered behind component `i`. */
    ghost predicate Held(i: nat)
      reads this
    {
      && i < |plan| && |runtime| == |delays| == |plan|
      && Base(i) && StopOk() && LifeAt(runtime[i], delays[i]) && FreshIdle(runtime, busy, |plan|)
    }

    // ---- The outside world ----

    method Ask() returns (answer: bool)
      modifies `tick
      ensures answer == world(old(tick)) && tick == old(tick) + 1
    {
      answer := world(tick);
      tick := tick + 1;
    }

    method Now() returns (t: nat)
      modifies `tick
      ensures t == clock(old(tick)) && tick == old(tick) + 1
    {
      t := clock(tick);
      tick := tick + 1;
    }

    /** Sends to a connected session; a missing one swallows the packet. */
    method SendReply(session: nat, request: nat, call: Option<nat>, code: string)
      modifies `outbox
      ensures outbox == if session in sessions then old(outbox) + [Reply(session, request, call, code)] else old(outbox)
    {
      if session in sessions {
        outbox := outbox + [Reply(session, request, call, code)];
      }
    }

    // ---- Router ----

    method ArmIdleTimeout(i: nat)
      requires |plan| == |runtime| == |busy| && i < |plan|
      modifies `busy
      ensures busy == old(busy)[i := old(busy)[i].(idleTimer := IdleAfter(plan[i], runtime[i], old(busy)[i].inflight))]
    {
      busy := busy[i := busy[i].(idleTimer := None)];
      if plan[i].lifecycle != OnDemand || plan[i].idleTimeoutMs == 0
         || runtime[i].state != Ready || busy[i].inflight != 0 {
        return;
      }
      busy := busy[i := busy[i].(idleTimer := Some(runtime[i].generation))];
    }

    method ProviderBusyDelta(i: nat, up: bool)
      requires |plan| == |runtime| == |busy| && i < |plan|
      modifies `busy
      ensures var b := old(busy)[i];
        busy == old(busy)[i :=
          if up then b.(inflight := if b.inflight < MAX_U32 then b.inflight + 1 else b.inflight, idleTimer := None)
          else if b.inflight > 0 then b.(inflight := b.inflight - 1,
                                         idleTimer := IdleAfter(plan[i], runtime[i], b.inflight - 1))
          else b]
    {
      if up {
        if busy[i].inflight < MAX_U32 {
          busy := busy[i := busy[i].(inflight := busy[i].inflight + 1)];
        }
        busy := busy[i := busy[i].(idleTimer := None)];
      } else if busy[i].inflight > 0 {
        busy := busy[i := busy[i].(inflight := busy[i].inflight - 1)];
        ArmIdleTimeout(i);
      }
    }

    method ErasePending(k: nat)
      requires BusyInv(plan, runtime, busy, pending) && k < |pending|
      modifies `pending, `busy
      ensures pending == Without(old(pending), k)
      ensures BusyInv(plan, runtime, busy, pending) && AllSettle(plan, runtime, old(busy), busy)
    {
      hide BusyInv, AllSettle, Delivered;
      BusySizes(plan, runtime, busy, pending);
      EraseStep(plan, runtime, busy, pending, k);
      if pending[k].delivered {
        ProviderBusyDelta(pending[k].provider, false);
      }
      pending := Without(pending, k);
    }

    /** Removes a call and answers its caller with an error. */
    method FailPending(k: nat, code: string)
      requires RouterOk(None)
      modifies `pending, `busy, `outbox
      ensures RouterOk(None) && AllSettle(plan, runtime, old(busy), busy)
      ensures old(outbox) <= outbox && Fewer(old(pending), pending)
      ensures if k < |old(pending)| then pending == Without(old(pending), k) &&
              outbox == old(outbox) + [ErrorTo(old(pending)[k], code)]
              else pending == old(pending) && outbox == old(outbox)
    {
      hide CallsInv, OrderlyStarts, BusyInv, AllSettle, Delivered;
      if k >= |pending| {
        BusySizes(plan, runtime, busy, pending);
        SettlesReflexive(plan, runtime, busy);
        return;
      }
      var p := pending[k];
      AnswerStep(accepted, pending, outbox, closed, nextForwardedId, k, code);
      CallerConnected(|plan|, sessions, closed, nextSession, pending, k);
      ErasePending(k);
      SendReply(p.callerSession, p.callerRequest, Some(p.forwardedId), code);
      SessionsFewer(|plan|, sessions, closed, nextSession, old(pending), pending, None);
    }

    /** Fails every call that waits for component `i` or was delivered to its generation, and no other. */
    method ComponentUnavailable(i: nat, generation: nat)
      requires RouterOk(None)
      modifies `pending, `busy, `outbox
      ensures RouterOk(None) && AllSettle(plan, runtime, old(busy), busy)
      ensures old(outbox) <= outbox && Fewer(old(pending), pending)
      ensures pending == Spared(old(pending), i, generation)
      ensures outbox == old(outbox) + Failures(old(pending), i, generation)
    {
      hide CallsInv, OrderlyStarts, SessionsInv, BusyInv, AllSettle, Delivered, Fewer, Spared, Failures;
      BusySizes(plan, runtime, busy, pending);
      SettlesReflexive(plan, runtime, busy);
      FewerReflexive(pending);
      SparingStarts(pending, i, generation, outbox);
      ghost var rest := pending;
      var k := 0;
      while k < |pending|
        invariant RouterOk(None) && AllSettle(plan, runtime, old(busy), busy)
        invariant old(outbox) <= outbox && Fewer(old(pending), pending) && k <= |pending| && rest == pending[k..]
        invariant Spared(old(pending), i, generation) == pending[..k] + Spared(rest, i, generation)
        invariant old(outbox) + Failures(old(pending), i, generation) == outbox + Failures(rest, i, generation)
        decreases |pending| - k
      {
        ghost var before, calls, said := busy, pending, outbox;
        SparingGoesOn(pending, k, i, generation, outbox);
        if pending[k].provider == i && (!pending[k].delivered || pending[k].providerGeneration == generation) {
          FailPending(k, "PROVIDER_UNAVAILABLE");
          SettlesTransitive(plan, runtime, old(busy), before, busy);
          FewerTransitive(old(pending), calls, pending);
        } else {
          k := k + 1;
        }
        rest := pending[k..];
      }
      SparingEnds(pending, i, generation, outbox);
    }

    /** A session is gone: its own calls are dropped, and if it was a component's channel,
        the calls that depended on that component fail. No other call is touched. */
    method SessionClosed(session: nat, peer: Peer)
      requires RouterOk(Some(session)) && session in closed
      modifies `pending, `busy, `outbox
      ensures RouterOk(None) && AllSettle(plan, runtime, old(busy), busy)
      ensures old(outbox) <= outbox && Fewer(old(pending), pending)
      ensures pending == AfterClose(old(pending), session, peer)
      ensures outbox == old(outbox) + Told(old(pending), session, peer)
    {
      hide CallsInv, OrderlyStarts, SessionsInv, BusyInv, AllSettle, Delivered, Fewer, NotFrom, Spared, Failures;
      DropCallsOf(session);
      ghost var before, calls := busy, pending;
      if peer.ComponentPeer? {
        ComponentUnavailable(peer.component, peer.generation);
        SettlesTransitive(plan, runtime, old(busy), before, busy);
        FewerTransitive(old(pending), calls, pending);
      }
    }

    /** Nobody is left to answer: the calls of a session are dropped without a reply. */
    method DropCallsOf(session: nat)
      requires RouterOk(Some(session)) && session in closed
      modifies `pending, `busy
      ensures RouterOk(None) && AllSettle(plan, runtime, old(busy), busy) && Fewer(old(pending), pending)
      ensures pending == NotFrom(old(pending), session)
    {
      hide CallsInv, OrderlyStarts, SessionsInv, BusyInv, AllSettle, Delivered, Fewer, NotFrom, Dropping, Without;
      BusySizes(plan, runtime, busy, pending);
      SettlesReflexive(plan, runtime, busy);
      FewerReflexive(pending);
      DroppingStarts(pending, session);
      var k := 0;
      while k < |pending|
        invariant RouterOk(Some(session)) && AllSettle(plan, runtime, old(busy), busy)
        invariant Fewer(old(pending), pending) && k <= |pending|
        invariant Dropping(old(pending), pending, k, session)
        decreases |pending| - k
      {
        ghost var before, calls := busy, pending;
        DroppingGoesOn(old(pending), pending, k, session);
        if pending[k].callerSession == session {
          AbandonStep(accepted, pending, outbox, closed, nextForwardedId, k);
          ErasePending(k);
          FewerWithout(calls, k);
          SettlesTransitive(plan, runtime, old(busy), before, busy);
          FewerTransitive(old(pending), calls, pending);
          SessionsFewer(|plan|, sessions, closed, nextSession, calls, pending, Some(session));
        } else {
          k := k + 1;
        }
      }
      DroppingEnds(old(pending), pending, session);
      NobodyFrom(old(pending), session);
      SessionsLeft(|plan|, sessions, closed, nextSession, pending, session);
    }

    /** The broker forgets a session and tells the router. */
    method DropSession(session: nat)
      requires RouterOk(None) && session in sessions
      modifies `pending, `busy, `outbox, `sessions, `closed
      ensures RouterOk(None) && AllSettle(plan, runtime, old(busy), busy)
      ensures old(outbox) <= outbox && Fewer(old(pending), pending)
      ensures sessions == old(sessions) - {session} && closed == old(closed) + {session}
      ensures pending == AfterClose(old(pending), session, old(sessions)[session])
      ensures outbox == old(outbox) + Told(old(pending), session, old(sessions)[session])
    {
      hide CallsInv, OrderlyStarts, SessionsInv, BusyInv, AllSettle, Delivered, Fewer, Told;
      var peer := sessions[session];
      SessionsLeaving(|plan|, sessions, closed, nextSession, pending, session);
      ClosingKeepsCalls(accepted, pending, outbox, closed, nextForwardedId, session);
      sessions := sessions - {session};
      closed := closed + {session};
      SessionClosed(session, peer);
    }

    /** Closes every channel of one generation of a component. */
    method CloseComponentSession(i: nat, generation: nat)
      requires RouterOk(None)
      modifies `pending, `busy, `outbox, `sessions, `closed
      ensures RouterOk(None) && AllSettle(plan, runtime, old(busy), busy)
      ensures old(outbox) <= outbox && Fewer(old(pending), pending) && old(closed) <= closed
      ensures sessions == Unwired(old(sessions), i, generation) && OthersStay(old(pending), pending, i, sessions)
    {
      hide CallsInv, OrderlyStarts, SessionsInv, BusyInv, AllSettle, Delivered, Fewer, OthersStay, AfterClose, Told;
      BusySizes(plan, runtime, busy, pending);
      SettlesReflexive(plan, runtime, busy);
      FewerReflexive(pending);
      OthersSpared(pending, i, generation, sessions);
      while exists s :: s in sessions && sessions[s] == ComponentPeer(i, generation)
        invariant RouterOk(None) && AllSettle(plan, runtime, old(busy), busy)
        invariant old(outbox) <= outbox && Fewer(old(pending), pending) && old(closed) <= closed
        invariant forall s :: s in sessions ==> s in old(sessions) && sessions[s] == old(sessions)[s]
        invariant forall s :: s in old(sessions) && old(sessions)[s] != ComponentPeer(i, generation) ==> s in sessions
        invariant OthersStay(old(pending), pending, i, sessions)
        decreases sessions.Keys
      {
        ghost var before, calls, were := busy, pending, sessions;
        var s :| s in sessions && sessions[s] == ComponentPeer(i, generation);
        DropSession(s);
        OthersAfterClose(calls, i, generation, s, sessions);
        OthersThen(old(pending), calls, pending, i, were, sessions);
        SettlesTransitive(plan, runtime, old(busy), before, busy);
        FewerTransitive(old(pending), calls, pending);
      }
    }

    /** Is there a channel to this generation of the component? */
    predicate Wired(i: nat, generation: nat)
      reads this
    {
      exists s :: s in sessions && sessions[s] == ComponentPeer(i, generation)
    }

    /** Hands a waiting call to its ready provider, or fails it: without a channel nothing is delivered. */
    method Deliver(k: nat, generation: nat) returns (ok: bool)
      requires RouterOk(None) && k < |pending| && !pending[k].delivered
      requires pending[k].provider < |runtime| && runtime[pending[k].provider].state == Ready
      requires generation == runtime[pending[k].provider].generation
      modifies `pending, `busy, `outbox, `tick
      ensures RouterOk(None) && IdleMoves(runtime, old(busy), busy)
      ensures old(outbox) <= outbox
      ensures ok <==>
        clock(old(tick)) < old(pending)[k].deadlineMs && Wired(old(pending)[k].provider, generation) &&
        world(old(tick) + 1)
      ensures pending == if ok then old(pending)[k :=
                                                 old(pending)[k].(delivered := true, providerGeneration := generation)]
                         else Without(old(pending), k)
      ensures outbox == if ok then old(outbox) else old(outbox) + [Undeliverable(old(pending)[k], clock(old(tick)))]
    {
      hide CallsInv, OrderlyStarts, SessionsInv, BusyInv, AllSettle, Delivered;
      var p := pending[k];
      var now := Now();
      if p.deadlineMs <= now {
        FailPending(k, "CALL_TIMEOUT");
        SettlingMoves(plan, runtime, old(busy), busy);
        return false;
      }
      var sent := Ask();
      if !(sent && Wired(p.provider, generation)) {
        FailPending(k, "NO_PROVIDER_SOCKET");
        SettlingMoves(plan, runtime, old(busy), busy);
        return false;
      }
      BusySizes(plan, runtime, busy, pending);
      CallBound(accepted, pending, outbox, closed, nextForwardedId);
      DeliverStep(plan, runtime, busy, pending, k);
      DeliverKeepsCalls(accepted, pending, outbox, closed, nextForwardedId, k, generation);
      SessionsDelivered(|plan|, sessions, closed, nextSession, pending, k, generation);
      pending := pending[k := p.(delivered := true, providerGeneration := generation)];
      ProviderBusyDelta(p.provider, true);
      ArmIdleTimeout(p.provider);
      assert busy == old(busy)[p.provider := old(busy)[p.provider].(inflight := old(busy)[p.provider].inflight + 1,
                                                                    idleTimer := None)];
      ok := true;
    }

    /** Every deadline is in the future and everything that is sent arrives. */
    ghost predicate Smooth(calls: seq<PendingCall>) {
      (forall t :: world(t)) && forall k, t :: 0 <= k < |calls| ==> clock(t) < calls[k].deadlineMs
    }

    /** A component became ready: every call waiting for it is delivered or failed, and none fails while all goes
        well. */
    method ComponentReady(i: nat, generation: nat)
      requires RouterOk(None) && i < |runtime| && runtime[i].state == Ready && generation == runtime[i].generation
      requires Unstranded(runtime, pending, i)
      modifies `pending, `busy, `outbox, `tick
      ensures RouterOk(None) && IdleMoves(runtime, old(busy), busy)
      ensures old(outbox) <= outbox && NoNewCalls(old(pending), pending)
      ensures Unstranded(runtime, pending, |plan|)
      ensures Smooth(old(pending)) && Wired(i, generation) ==> |pending| == |old(pending)|
    {
      hide CallsInv, OrderlyStarts, SessionsInv, BusyInv, Delivered, IdleMoves, NoNewCalls, Unstranded;
      BusySizes(plan, runtime, busy, pending);
      MovesReflexive(runtime, busy);
      NoNewReflexive(pending);
      var k := 0;
      while k < |pending|
        invariant RouterOk(None) && IdleMoves(runtime, old(busy), busy)
        invariant old(outbox) <= outbox && NoNewCalls(old(pending), pending) && k <= |pending|
        invariant Unstranded(runtime, pending, i)
        invariant forall j :: 0 <= j < k && pending[j].provider == i ==> pending[j].delivered
        invariant Smooth(old(pending)) && Wired(i, generation) ==> SameDeadlines(old(pending), pending)
        decreases |pending| - k
      {
        ghost var before, calls := busy, pending;
        if pending[k].provider == i && !pending[k].delivered {
          var ok := Deliver(k, generation);
          MovesTransitive(runtime, old(busy), before, busy);
          NoNewStep(old(pending), calls, pending, k);
          UnstrandedStep(runtime, calls, pending, k, i);
          if !ok {
            continue;
          }
        }
        k := k + 1;
      }
      BusySizes(plan, runtime, busy, pending);
      NobodyWaits(runtime, pending, i, |plan|);
    }

    // ---- Supervisor ----

    method RemoveIdleTimer(i: nat, ghost except: nat)
      requires Base(except) && i < |plan|
      modifies `busy
      ensures Base(except) && |busy| == |old(busy)| == |plan|
      ensures busy == old(busy)[i := old(busy)[i].(idleTimer := None)]
    {
      hide CallsInv, OrderlyStarts, SessionsInv, RecordsInv;
      RecordsDisarm(plan, runtime, busy, pending, delays, starts, except, i);
      busy := busy[i := busy[i].(idleTimer := None)];
    }

    /** A live component is told to stop: its idle timer goes, and with it its channel. */
    method EnterStopping(i: nat, readinessFailed: bool, manualStop: bool, closeChannel: bool)
      requires Base(|plan|) && i < |plan| && runtime[i].pid > 0
      modifies `runtime, `busy, `pending, `outbox, `sessions, `closed
      ensures Base(|plan|) && old(outbox) <= outbox && old(closed) <= closed && Fewer(old(pending), pending)
      ensures |runtime| == |old(runtime)| && QuietStays(runtime, old(busy), busy)
      ensures runtime == old(runtime)[i := old(runtime)[i].(state := Stopping, readinessFailed := readinessFailed,
                                                            manualStop := manualStop)]
      ensures sessions == if closeChannel then Unwired(old(sessions), i, old(runtime)[i].generation) else old(sessions)
      ensures OthersStay(old(pending), pending, i, sessions)
    {
      hide CallsInv, OrderlyStarts, SessionsInv, RecordsInv, AllSettle, Fewer, RestartsOk, OthersStay, Unwired;
      InTransition(plan, runtime, busy, pending, delays, starts, i);
      RemoveIdleTimer(i, i);
      ghost var r := runtime[i].(state := Stopping, readinessFailed := readinessFailed, manualStop := manualStop);
      SameRestarts(plan[i], runtime[i], r, delays[i]);
      Replace(plan, runtime, busy, pending, delays, starts, i, r, delays[i]);
      assert delays[i := delays[i]] == delays;
      runtime := runtime[i := runtime[i].(state := Stopping, readinessFailed := readinessFailed,
                                          manualStop := manualStop)];
      ghost var before := busy;
      RecordsSizes(plan, runtime, busy, pending, delays, starts, |plan|);
      CloseChannel(i, closeChannel);
      SettlingStaysQuiet(plan, runtime, before, busy);
    }

    /** Closes the channel of a component's running generation, if that is asked for. */
    method CloseChannel(i: nat, closeChannel: bool)
      requires Base(|plan|) && i < |plan| == |runtime|
      modifies `busy, `pending, `outbox, `sessions, `closed
      ensures Base(|plan|) && old(outbox) <= outbox && old(closed) <= closed && Fewer(old(pending), pending)
      ensures AllSettle(plan, runtime, old(busy), busy)
      ensures sessions == if closeChannel then Unwired(old(sessions), i, runtime[i].generation) else old(sessions)
      ensures OthersStay(old(pending), pending, i, sessions)
    {
      hide CallsInv, OrderlyStarts, SessionsInv, RecordsInv, AllSettle, Fewer, OthersStay, Unwired;
      FewerReflexive(pending);
      RecordsSizes(plan, runtime, busy, pending, delays, starts, |plan|);
      SettlesReflexive(plan, runtime, busy);
      OthersSpared(pending, i, runtime[i].generation, sessions);
      if closeChannel {
        CloseComponentSession(i, runtime[i].generation);
        AfterClosing(plan, runtime, old(busy), old(pending), busy, pending, delays, starts, |plan|);
      }
    }

    /** Signals the next component of the stop sequence, or finishes. */
    method StopNext()
      requires Base(|plan|) && shuttingDown && !done && stoppingIndex == None
      requires StopSequence(runtime, stopOrder, None, stopLog)
      modifies `runtime, `busy, `pending, `outbox, `sessions, `closed, `stopOrder, `stoppingIndex, `stopLog, `done
      ensures Valid() && old(outbox) <= outbox && old(closed) <= closed && old(stopLog) <= stopLog
      ensures Fewer(old(pending), pending) && WaitingIn(runtime) == {}
      ensures QuietStays(runtime, old(busy), busy) && Quieter(old(runtime), runtime) && DeadStay(old(runtime), runtime)
    {
      hide CallsInv, OrderlyStarts, SessionsInv, RecordsInv, Fewer, StopSequence, StopInv, QuietStays, WaitingIn,
           Quieter;
      RecordsSizes(plan, runtime, busy, pending, delays, starts, |plan|);
      var next := PopLive();
      if next.Some? {
        SignalStop(next.value);
        return;
      }
      done := true;
      stoppingIndex := None;
      StopFinished(runtime, stopLog);
      NothingHappened(runtime, busy, pending);
    }

    /** Takes the live component with the highest start sequence from the stop sequence. */
    method PopLive() returns (next: Option<nat>)
      requires StopSequence(runtime, stopOrder, None, stopLog)
      modifies `stopOrder
      ensures next.None? ==> stopOrder == [] && StopSequence(runtime, [], None, stopLog)
      ensures next.Some? ==>
        && next.value < |runtime| && runtime[next.value].pid > 0
        && StopSequence(runtime, stopOrder, next, stopLog)
        && (forall k :: 0 <= k < |stopOrder| ==>
             stopOrder[k] < |runtime| && runtime[stopOrder[k]].startSequence < runtime[next.value].startSequence)
        && (stopLog != [] ==> runtime[next.value].startSequence < stopLog[|stopLog|-1])
    {
      hide *;
      while stopOrder != []
        invariant StopSequence(runtime, stopOrder, None, stopLog)
        decreases |stopOrder|
      {
        var index := stopOrder[|stopOrder|-1];
        StopPop(runtime, stopOrder, stopLog);
        stopOrder := stopOrder[..|stopOrder|-1];
        if runtime[index].pid <= 0 {
          continue;
        }
        return Some(index);
      }
      next := None;
    }

    /** Sends the stop signal to the component taken from the stop sequence. */
    method SignalStop(index: nat)
      requires Base(|plan|) && shuttingDown && !done && index < |runtime| && runtime[index].pid > 0
      requires StopSequence(runtime, stopOrder, Some(index), stopLog)
      requires forall k :: 0 <= k < |stopOrder| ==>
        stopOrder[k] < |runtime| && runtime[stopOrder[k]].startSequence < runtime[index].startSequence
      requires stopLog != [] ==> runtime[index].startSequence < stopLog[|stopLog|-1]
      modifies `runtime, `busy, `pending, `outbox, `sessions, `closed, `stoppingIndex, `stopLog
      ensures Valid() && old(outbox) <= outbox && old(closed) <= closed
      ensures stopLog == old(stopLog) + [old(runtime)[index].startSequence]
      ensures Fewer(old(pending), pending) && WaitingIn(runtime) == {}
      ensures QuietStays(runtime, old(busy), busy) && Quieter(old(runtime), runtime) && DeadStay(old(runtime), runtime)
    {
      hide CallsInv, OrderlyStarts, SessionsInv, RecordsInv, Fewer, StopSequence, StopInv, QuietStays, WaitingIn;
      RecordsSizes(plan, runtime, busy, pending, delays, starts, |plan|);
      stoppingIndex := Some(index);
      stopLog := stopLog + [runtime[index].startSequence];
      EnterStopping(index, runtime[index].readinessFailed, runtime[index].manualStop,
                    brokered && plan[index].readiness == Mipc);
      StopSignalled(old(runtime), runtime, stopOrder, index, old(stopLog));
    }

    /** Starts an orderly shutdown; a second request can only turn a zero exit code into a nonzero one. */
    method BeginShutdown(code: int)
      requires Valid()
      modifies this
      ensures Valid() && Advances() && shuttingDown
      ensures accepted == old(accepted) && nextForwardedId == old(nextForwardedId) && starts == old(starts)
      ensures delays == old(delays)
      ensures exitCode == if !old(shuttingDown) || old(exitCode) == 0
        then (if old(shuttingDown) && code == 0 then old(exitCode) else code) else old(exitCode)
      ensures !old(shuttingDown) ==> WaitingIn(runtime) == {} && |runtime| == |busy|
      ensures !old(shuttingDown) ==>
        forall i :: 0 <= i < |busy| && runtime[i].state != Ready ==> busy[i].idleTimer == None
      ensures Quieter(old(runtime), runtime)
    {
      hide CallsInv, OrderlyStarts, SessionsInv, RecordsInv, StopInv, NoNewCalls, WaitingIn;
      if shuttingDown {
        NoNewReflexive(pending);
        if code != 0 && exitCode == 0 {
          exitCode := code;
        }
        return;
      }
      exitCode := code;
      StopAll();
    }

    /** From now on components are stopped, one after another. */
    method StopAll()
      requires Valid() && !shuttingDown
      modifies `shuttingDown, `runtime, `busy, `pending, `outbox, `sessions, `closed, `stopOrder, `stoppingIndex,
               `stopLog, `done
      ensures Valid() && Advances() && shuttingDown
      ensures WaitingIn(runtime) == {} && |runtime| == |busy| && Quieter(old(runtime), runtime)
      ensures forall i :: 0 <= i < |busy| && runtime[i].state != Ready ==> busy[i].idleTimer == None
    {
      hide CallsInv, OrderlyStarts, SessionsInv, RecordsInv, Fewer, StopSequence, StopInv, NoNewCalls, WaitingIn;
      StopIdle(runtime, stopOrder, stoppingIndex, stopLog, done);
      shuttingDown := true;
      CollectLive();
      ghost var calls := pending;
      StopNext();
      FewerNoNew(calls, pending);
    }

    /** Disarms every restart and idle timer, and lines up the live components by start sequence. */
    method CollectLive()
      requires Base(|plan|)
      modifies `runtime, `busy, `stopOrder
      ensures Base(|plan|) && StopSequence(runtime, stopOrder, None, [])
      ensures forall i :: 0 <= i < |busy| ==> busy[i].idleTimer == None
      ensures Quieter(old(runtime), runtime)
    {
      hide CallsInv, OrderlyStarts, SessionsInv, RecordsInv, RestartsOk, LifeAt, Collected, StopSequence, ByStart,
           Quieter;
      stopOrder := [];
      RecordsSizes(plan, runtime, busy, pending, delays, starts, |plan|);
      CollectedNone(runtime, busy);
      NothingHappened(runtime, busy, pending);
      for k := 0 to |plan|
        invariant Base(|plan|) && |runtime| == |busy| == |plan|
        invariant Collected(runtime, busy, stopOrder, k) && Quieter(old(runtime), runtime)
      {
        ghost var before := runtime;
        CollectOne(k);
        QuieterTransitive(old(runtime), before, runtime);
      }
      CollectedAll(runtime, busy, stopOrder);
    }

    method CollectOne(k: nat)
      requires Base(|plan|) && k < |plan| == |runtime| == |busy| && Collected(runtime, busy, stopOrder, k)
      modifies `runtime, `busy, `stopOrder
      ensures Base(|plan|) && |runtime| == |busy| == |plan| && Quieter(old(runtime), runtime)
      ensures Collected(runtime, busy, stopOrder, k + 1)
    {
      hide CallsInv, OrderlyStarts, SessionsInv, RecordsInv, RestartsOk, LifeAt, Collected, ByStart, Quieter;
      InTransition(plan, runtime, busy, pending, delays, starts, k);
      RemoveIdleTimer(k, |plan|);
      NothingHappened(runtime, busy, pending);
      if runtime[k].pid > 0 {
        CollectLiveOne(plan, runtime, old(busy), busy, pending, delays, starts, stopOrder, k);
        stopOrder := InsertByStart(runtime, stopOrder, k);
        return;
      }
      ghost var r := runtime[k].(restartTimer := None, state := if runtime[k].state == Failed then Failed else Stopped);
      Halted(plan, runtime, busy, pending, delays, starts, k, r);
      CollectDeadOne(runtime, old(busy), busy, stopOrder, k, r);
      runtime := runtime[k := runtime[k].(restartTimer := None)];
      if runtime[k].state != Failed {
        runtime := runtime[k := runtime[k].(state := Stopped)];
      }
      assert runtime == old(runtime)[k := r];
    }

    /** A component that is no longer running is scheduled for a restart, or is done for. */
    method ScheduleOrFail(i: nat, failed: bool)
      requires Base(i) && StopOk() && !shuttingDown && i < |plan| && |runtime| == |plan|
      requires runtime[i].pid <= 0 && runtime[i].restartTimer == None && !runtime[i].state.Waiting?
      requires NoCallsTo(pending, i)
      requires |busy| == |plan| && Leavable(plan[i], runtime[i], busy[i])
      modifies this
      ensures Valid() && Advances() && starts == old(starts)
      ensures accepted == old(accepted) && nextForwardedId == old(nextForwardedId)
      ensures i < |runtime| == |busy| && runtime[i].state != Ready && runtime[i].pid <= 0
      ensures !shuttingDown ==> busy == old(busy) && pending == old(pending) && outbox == old(outbox)
      ensures !shuttingDown ==> sessions == old(sessions)
      ensures !shuttingDown ==> runtime == old(runtime)[i := Downed(plan[i], old(runtime)[i], failed)]
      ensures shuttingDown <==>
        if Restartable(plan[i], old(runtime)[i], failed) then !world(old(tick)) else plan[i].critical
      ensures shuttingDown ==> exitCode == if Restartable(plan[i], old(runtime)[i], failed) then 71 else 70
      ensures shuttingDown ==> busy[i].idleTimer == None
    {
      hide CallsInv, OrderlyStarts, SessionsInv, RecordsInv, StopInv, NoNewCalls, RestartsOk, WaitingIn, NoCallsTo;
      RestartsAt(plan, runtime, busy, pending, delays, starts, i);
      NoNewReflexive(pending);
      if Restartable(plan[i], runtime[i], failed) {
        var armed := BackOff(i);
        if !armed {
          BeginShutdown(71);
        }
        return;
      }
      EndUp(i, failed);
      if plan[i].critical {
        BeginShutdown(70);
      }
    }

    /** Counts a restart and arms its timer; without a timer the component has failed. */
    method BackOff(i: nat) returns (armed: bool)
      requires Base(i) && StopOk() && !shuttingDown && i < |plan| && |runtime| == |plan|
      requires runtime[i].pid <= 0 && runtime[i].restartTimer == None && !runtime[i].state.Waiting?
      requires NoCallsTo(pending, i)
      requires |busy| == |plan| && Leavable(plan[i], runtime[i], busy[i])
      requires runtime[i].restartCount < plan[i].restartLimit
      modifies `runtime, `tick, `delays
      ensures Valid() && WaitingIn(runtime) == WaitingIn(old(runtime)) && i < |runtime| == |busy|
      ensures runtime[i].state == (if armed then Backoff else Failed) && runtime[i].pid <= 0
      ensures armed == world(old(tick))
      ensures armed ==>
        runtime == old(runtime)[i := old(runtime)[i].(restartCount := old(runtime)[i].restartCount + 1,
                                                      state := Backoff,
        restartTimer := Some(RestartTimer(old(runtime)[i].generation,
                                          BackoffDelay(plan[i], old(runtime)[i].restartCount + 1))))]
    {
      hide CallsInv, OrderlyStarts, SessionsInv, RecordsInv, StopInv, RestartsOk, WaitingIn, BackoffDelay;
      RestartsAt(plan, runtime, busy, pending, delays, starts, i);
      var delay := RestartDelay(plan[i], runtime[i].restartCount + 1);
      armed := Ask();
      ghost var r := runtime[i].(restartCount := runtime[i].restartCount + 1,
                                 state := if armed then Backoff else Failed,
                                 restartTimer := if armed then Some(RestartTimer(runtime[i].generation, delay))
                                   else None);
      OneMoreRestart(plan[i], runtime[i], r, delays[i], delay);
      Replace(plan, runtime, busy, pending, delays, starts, i, r, delays[i] + [delay]);
      StillRunning(runtime, done, stopOrder, stoppingIndex, stopLog, i, r);
      delays := delays[i := delays[i] + [delay]];
      runtime := runtime[i := runtime[i].(restartCount := runtime[i].restartCount + 1, state := Backoff)];
      if armed {
        runtime := runtime[i := runtime[i].(restartTimer := Some(RestartTimer(runtime[i].generation, delay)))];
      } else {
        runtime := runtime[i := runtime[i].(state := Failed)];
      }
      assert runtime == old(runtime)[i := r];
    }

    /** The component stays down. */
    method EndUp(i: nat, failed: bool)
      requires Base(i) && StopOk() && !shuttingDown && i < |plan| && |runtime| == |plan|
      requires runtime[i].pid <= 0 && runtime[i].restartTimer == None && !runtime[i].state.Waiting?
      requires NoCallsTo(pending, i)
      requires |busy| == |plan| && Leavable(plan[i], runtime[i], busy[i])
      modifies `runtime
      ensures Valid() && WaitingIn(runtime) == WaitingIn(old(runtime)) && i < |runtime| == |busy|
      ensures runtime == old(runtime)[i := old(runtime)[i].(state := if failed then Failed else Stopped)]
    {
      hide CallsInv, OrderlyStarts, SessionsInv, RecordsInv, StopInv, RestartsOk, WaitingIn;
      RestartsAt(plan, runtime, busy, pending, delays, starts, i);
      ghost var r := runtime[i].(state := if failed then Failed else Stopped);
      SameRestarts(plan[i], runtime[i], r, delays[i]);
      Replace(plan, runtime, busy, pending, delays, starts, i, r, delays[i]);
      StillRunning(runtime, done, stopOrder, stoppingIndex, stopLog, i, r);
      assert delays[i := delays[i]] == delays;
      runtime := runtime[i := runtime[i].(state := if failed then Failed else Stopped)];
    }

    /** A start that produced no process. */
    method HandleSpawnFailure(i: nat)
      requires Base(i) && StopOk() && !shuttingDown && i < |plan| && |runtime| == |plan|
      requires runtime[i].state == Starting && runtime[i].pid <= 0 && runtime[i].restartTimer == None
      modifies this
      ensures Valid() && Advances() && starts == old(starts)
      ensures accepted == old(accepted) && nextForwardedId == old(nextForwardedId)
      ensures !shuttingDown ==>
        && runtime == old(runtime)[i := Downed(plan[i], old(runtime)[i].(pid := -1, readinessFailed := true), true)]
        && NoCallsTo(pending, i) && |busy| == |plan| && busy[i].idleTimer == None
        && OthersStay(old(pending), pending, i, sessions)
        && sessions == if brokered && plan[i].readiness == Mipc
                       then Unwired(old(sessions), i, old(runtime)[i].generation) else old(sessions)
      ensures !shuttingDown && !(brokered && plan[i].readiness == Mipc) ==>
        && pending == Spared(old(pending), i, old(runtime)[i].generation)
        && outbox == old(outbox) + Failures(old(pending), i, old(runtime)[i].generation)
    {
      hide CallsInv, OrderlyStarts, SessionsInv, RecordsInv, StopInv, NoNewCalls, WaitingIn, Fewer, NoCallsTo,
           AllSettle, BusyInv, Spared, Failures, OthersStay, Unwired;
      NoteSpawnFailure(i);
      ghost var before := busy;
      Disconnect(i, brokered && plan[i].readiness == Mipc);
      SettledAt(plan, runtime, before, busy, i);
      ghost var calls := pending;
      ScheduleOrFail(i, true);
      NoNewTransitive(old(pending), calls, pending);
    }

    method NoteSpawnFailure(i: nat)
      requires Base(i) && StopOk() && !shuttingDown && i < |plan| && |runtime| == |plan|
      requires runtime[i].state == Starting && runtime[i].pid <= 0 && runtime[i].restartTimer == None
      modifies `runtime, `busy
      ensures Base(i) && StopOk() && |busy| == |plan| && busy[i].idleTimer == None
      ensures runtime == old(runtime)[i := old(runtime)[i].(pid := -1, readinessFailed := true)]
      ensures WaitingIn(runtime) == WaitingIn(old(runtime))
    {
      hide CallsInv, OrderlyStarts, SessionsInv, RecordsInv, StopInv, WaitingIn;
      ghost var r := runtime[i].(pid := -1, readinessFailed := true);
      StillInTransition(plan, runtime, busy, pending, delays, starts, i, r);
      StillRunning(runtime, done, stopOrder, stoppingIndex, stopLog, i, r);
      runtime := runtime[i := runtime[i].(pid := -1, readinessFailed := true)];
      RemoveIdleTimer(i, i);
    }

    /** Closes a component's channel if it has one, and fails the calls that concern it. */
    method Disconnect(i: nat, closeChannel: bool)
      requires Base(i) && i < |plan| && |runtime| == |plan|
      modifies `busy, `pending, `outbox, `sessions, `closed
      ensures Base(i) && old(outbox) <= outbox && old(closed) <= closed && NoNewCalls(old(pending), pending)
      ensures NoCallsTo(pending, i) && AllSettle(plan, runtime, old(busy), busy) && |busy| == |plan|
      ensures busy[i].inflight == 0 && OthersStay(old(pending), pending, i, sessions)
      ensures sessions == if closeChannel then Unwired(old(sessions), i, runtime[i].generation) else old(sessions)
      ensures !closeChannel ==>
        && pending == Spared(old(pending), i, runtime[i].generation)
        && outbox == old(outbox) + Failures(old(pending), i, runtime[i].generation)
    {
      hide CallsInv, OrderlyStarts, SessionsInv, RecordsInv, StopInv, NoNewCalls, Fewer, NoCallsTo, AllSettle, BusyInv,
           Spared, Failures, OthersStay, Unwired;
      RecordsSizes(plan, runtime, busy, pending, delays, starts, i);
      SettlesReflexive(plan, runtime, busy);
      FewerReflexive(pending);
      OthersSpared(pending, i, runtime[i].generation, sessions);
      if closeChannel {
        CloseComponentSession(i, runtime[i].generation);
        AfterClosing(plan, runtime, old(busy), old(pending), busy, pending, delays, starts, i);
      }
      ghost var before, calls := busy, pending;
      ComponentUnavailable(i, runtime[i].generation);
      OthersSpared(calls, i, runtime[i].generation, sessions);
      OthersThen(old(pending), calls, pending, i, sessions, sessions);
      SettlesTransitive(plan, runtime, old(busy), before, busy);
      FewerTransitive(old(pending), calls, pending);
      FewerNoNew(old(pending), pending);
      AfterClosing(plan, runtime, old(busy), old(pending), busy, pending, delays, starts, i);
      SparedOnly(calls, i, runtime[i].generation);
      NobodyLeft(plan, runtime, busy, pending, i);
      RecordsSizes(plan, runtime, busy, pending, delays, starts, i);
    }

    /** A running component misbehaved: it is told to stop, and its callers are told. */
    method FailRunningComponent(i: nat)
      requires Valid() && i < |plan|
      modifies this
      ensures Valid() && Advances() && starts == old(starts) && shuttingDown == old(shuttingDown)
      ensures accepted == old(accepted) && nextForwardedId == old(nextForwardedId)
      ensures |runtime| == |old(runtime)| == |plan|
      ensures old(runtime)[i].pid <= 0 || old(runtime)[i].state == Stopping ==> unchanged(this)
      ensures old(runtime)[i].pid > 0 ==> runtime[i].state == Stopping
      ensures old(runtime)[i].pid > 0 && old(runtime)[i].state != Stopping ==>
        && runtime == old(runtime)[i := old(runtime)[i].(state := Stopping, readinessFailed := true)]
        && NoCallsTo(pending, i) && OthersStay(old(pending), pending, i, sessions)
        && sessions == if brokered && plan[i].readiness == Mipc
                       then Unwired(old(sessions), i, old(runtime)[i].generation) else old(sessions)
    {
      hide CallsInv, OrderlyStarts, SessionsInv, RecordsInv, StopInv, NoNewCalls, WaitingIn, Fewer, NoCallsTo,
           AllSettle, BusyInv, Spared, Failures, OthersStay, Unwired;
      InTransition(plan, runtime, busy, pending, delays, starts, i);
      NoNewReflexive(pending);
      if runtime[i].pid <= 0 || runtime[i].state == Stopping {
        return;
      }
      EnterStopping(i, true, runtime[i].manualStop, brokered && plan[i].readiness == Mipc);
      LeavesReady(old(runtime), shuttingDown, done, stopOrder, stoppingIndex, stopLog, i, runtime[i]);
      ghost var calls := pending;
      FailCallsTo(i);
      OthersThen(old(pending), calls, pending, i, sessions, sessions);
      FewerTransitive(old(pending), calls, pending);
      FewerNoNew(old(pending), pending);
    }

    /** All calls to a component fail. */
    method FailCallsTo(i: nat)
      requires Base(|plan|) && i < |plan| == |runtime|
      modifies `busy, `pending, `outbox
      ensures Base(|plan|) && old(outbox) <= outbox && Fewer(old(pending), pending) && NoCallsTo(pending, i)
      ensures OthersStay(old(pending), pending, i, sessions)
    {
      hide CallsInv, OrderlyStarts, SessionsInv, RecordsInv, Fewer, NoCallsTo, AllSettle, BusyInv, Spared, Failures,
           OthersStay;
      OthersSpared(pending, i, runtime[i].generation, sessions);
      ghost var before, calls := busy, pending;
      RecordsSizes(plan, runtime, busy, pending, delays, starts, |plan|);
      ComponentUnavailable(i, runtime[i].generation);
      AfterClosing(plan, runtime, before, calls, busy, pending, delays, starts, |plan|);
      SparedOnly(calls, i, runtime[i].generation);
      NobodyLeft(plan, runtime, busy, pending, i);
    }

    /** Records the start of a waiting component. */
    method BeginStart(i: nat)
      requires Valid() && i < |plan| && |runtime| == |plan| && !shuttingDown && runtime[i].state == Waiting
      requires DependenciesReady(plan, runtime, i)
      modifies `runtime, `startSequence, `starts, `seen
      ensures Base(i) && StopOk() && |runtime| == |plan|
      ensures runtime[i].state == Starting && runtime[i].restartTimer == None && runtime[i].pid <= 0
      ensures runtime[i].generation == old(runtime)[i].generation + 1
      ensures starts == old(starts) + [i] && WaitingIn(runtime) == WaitingIn(old(runtime)) - {i}
      ensures runtime == old(runtime)[i := runtime[i]] && !runtime[i].manualStop && !runtime[i].readinessFailed
      ensures runtime[i].restartCount == old(runtime)[i].restartCount
    {
      hide CallsInv, OrderlyStarts, SessionsInv, RecordsInv, StopInv, WaitingIn;
      ghost var r := runtime[i].(state := Starting, readinessFailed := false, manualStop := false,
                                 generation := runtime[i].generation + 1, startSequence := startSequence + 1);
      Started(plan, runtime, busy, pending, delays, starts, i, r);
      Departed(runtime, done, stopOrder, stoppingIndex, stopLog, i, r);
      startSequence := startSequence + 1;
      OneMoreStart(plan, runtime, starts, seen, i);
      starts, seen := starts + [i], seen + [States(runtime)];
      runtime := runtime[i := runtime[i].(state := Starting, readinessFailed := false, manualStop := false,
                                          generation := runtime[i].generation + 1, startSequence := startSequence)];
    }

    /** Makes the readiness pipe or the private channel a component needs. */
    method OpenChannel(i: nat) returns (ok: bool)
      requires Base(i) && i < |plan| && |runtime| == |plan| && runtime[i].generation > 0
      modifies `sessions, `nextSession, `tick
      ensures Base(i)
      ensures ok <==> ChannelMade(plan[i], brokered, world(old(tick)))
      ensures tick == old(tick) + (if plan[i].readiness == Fd || plan[i].readiness == Mipc then 1 else 0)
    {
      hide CallsInv, OrderlyStarts, SessionsInv, RecordsInv;
      if plan[i].readiness == Fd {
        ok := Ask();
        return;
      }
      if plan[i].readiness == Mipc {
        ok := Ask();
        if !brokered || !ok {
          return false;
        }
        SessionOpens(|plan|, sessions, closed, nextSession, pending, ComponentPeer(i, runtime[i].generation));
        sessions := sessions[nextSession := ComponentPeer(i, runtime[i].generation)];
        nextSession := nextSession + 1;
      }
      ok := true;
    }

    /** Records a start and asks for the process: true when it is running. */
    method Launch(i: nat) returns (running: bool)
      requires Valid() && i < |plan| && |runtime| == |plan| && !shuttingDown && runtime[i].state == Waiting
      requires DependenciesReady(plan, runtime, i)
      modifies `runtime, `startSequence, `starts, `seen, `sessions, `nextSession, `tick
      ensures Base(i) && StopOk() && |runtime| == |plan| && runtime[i].state == Starting
      ensures runtime[i].restartTimer == None
      ensures running <==> runtime[i].pid > 0
      ensures running <==> ChannelMade(plan[i], brokered, world(old(tick)))
                           && world(old(tick) + (if plan[i].readiness == Fd || plan[i].readiness == Mipc then 1 else 0))
      ensures running ==> Valid() && tick == old(tick) + 2 +
                                             (if plan[i].readiness == Fd || plan[i].readiness == Mipc then 1 else 0)
      ensures runtime[i].restartCount == old(runtime)[i].restartCount
      ensures starts == old(starts) + [i] && WaitingIn(runtime) == WaitingIn(old(runtime)) - {i}
      ensures runtime == old(runtime)[i := runtime[i]] && runtime[i].generation == old(runtime)[i].generation + 1
    {
      hide CallsInv, OrderlyStarts, SessionsInv, RecordsInv, StopInv, WaitingIn;
      BeginStart(i);
      running := OpenChannel(i);
      if running {
        running := Spawn(i);
      }
    }

    /** Asks for the process of a component that is being started. */
    method Spawn(i: nat) returns (running: bool)
      requires Base(i) && StopOk() && i < |plan| && |runtime| == |plan|
      requires runtime[i].state == Starting && runtime[i].restartTimer == None && runtime[i].pid <= 0
      requires runtime[i].generation > 0 && !runtime[i].manualStop && !runtime[i].readinessFailed && !shuttingDown
      modifies `runtime, `tick
      ensures Base(i) && StopOk() && |runtime| == |plan| && (running ==> Valid())
      ensures runtime == old(runtime)[i := old(runtime)[i].(pid := runtime[i].pid)]
      ensures (running <==> runtime[i].pid > 0) && running == world(old(tick))
      ensures running ==> tick == old(tick) + 2
      ensures WaitingIn(runtime) == WaitingIn(old(runtime))
    {
      hide CallsInv, OrderlyStarts, SessionsInv, RecordsInv, StopInv, WaitingIn;
      running := Ask();
      if running {
        var pid := Now();
        ghost var live := runtime[i].(pid := pid + 1);
        Launched(plan, runtime, busy, pending, delays, starts, i, live);
        StillRunning(runtime, done, stopOrder, stoppingIndex, stopLog, i, live);
        runtime := runtime[i := runtime[i].(pid := pid + 1)];
        InTransition(plan, runtime, busy, pending, delays, starts, i);
      }
    }

    /** A readiness signal. Signals of an older generation, or for a component that is not starting, change nothing. */
    method MarkReady(i: nat, generation: nat)
      requires Valid() && i < |plan|
      modifies this
      ensures Valid() && Advances() && accepted == old(accepted) && nextForwardedId == old(nextForwardedId)
      ensures |old(runtime)| == |plan|
      ensures old(runtime)[i].generation != generation || old(runtime)[i].state != Starting ==> unchanged(this)
      ensures old(runtime)[i].generation == generation && old(runtime)[i].state == Starting && !shuttingDown ==>
        Progressed(old(runtime)[i := old(runtime)[i].(state := Ready)], old(starts), runtime, starts)
      decreases WaitingIn(runtime), 3
    {
      hide CallsInv, OrderlyStarts, SessionsInv, RecordsInv, StopInv, NoNewCalls, WaitingIn, Unstranded, FreshIdle,
           IdleMoves, BusyInv, LifeInv, Progressed;
      RecordsSizes(plan, runtime, busy, pending, delays, starts, |plan|);
      NoNewReflexive(pending);
      if runtime[i].generation != generation || (runtime[i].state != Starting && runtime[i].state != Ready) {
        return;
      }
      if runtime[i].state == Ready {
        return;
      }
      TurnReady(i, generation);
      ghost var calls := pending;
      StartEligible();
      NoNewTransitive(old(pending), calls, pending);
    }

    /** A starting component is ready: its callers are served, and it may be idle. */
    method TurnReady(i: nat, generation: nat)
      requires Valid() && i < |plan| == |runtime| && runtime[i].state == Starting && runtime[i].generation == generation
      modifies `runtime, `busy, `pending, `outbox, `tick
      ensures Valid() && runtime == old(runtime)[i := old(runtime)[i].(state := Ready)]
      ensures old(outbox) <= outbox && NoNewCalls(old(pending), pending)
      ensures WaitingIn(runtime) == WaitingIn(old(runtime))
      ensures Smooth(old(pending)) && Wired(i, generation) ==> |pending| == |old(pending)|
    {
      hide CallsInv, OrderlyStarts, SessionsInv, RecordsInv, StopInv, NoNewCalls, WaitingIn, Unstranded, FreshIdle,
           IdleMoves, BusyInv, LifeInv;
      ghost var r := runtime[i].(state := Ready);
      TurnsReady(plan, runtime, busy, pending, delays, starts, i, r);
      ReadyInOrder(runtime, shuttingDown, done, stopOrder, stoppingIndex, stopLog, i, r);
      runtime := runtime[i := runtime[i].(state := Ready)];
      ghost var before := busy;
      ComponentReady(i, generation);
      BusySizes(plan, runtime, busy, pending);
      ServesNow(plan, runtime, before, busy, pending, delays, starts, i);
      ArmIdleTimeout(i);
    }

    /** In which state a component is after it was started: without a process, ready at once, starting, or stopping
        again if the timer for its readiness could not be had. */
    function AfterSpawn(i: nat, r: Runtime, time: nat): RunState
      requires i < |plan|
    {
      var asked := if plan[i].readiness == Fd || plan[i].readiness == Mipc then 1 else 0;
      if !(ChannelMade(plan[i], brokered, world(time)) && world(time + asked)) then
        if Restartable(plan[i], r, true) then Backoff else Failed
      else if plan[i].readiness == Exec then Ready
      else if world(time + asked + 2) then Starting else Stopping
    }

    /** Starts a waiting component whose dependencies no longer hold it back. */
    method SpawnComponent(i: nat)
      requires Valid() && i < |plan| && |runtime| == |plan| && !shuttingDown && runtime[i].state == Waiting
      requires DependenciesReady(plan, runtime, i)
      modifies this
      ensures Valid() && Advances() && accepted == old(accepted) && nextForwardedId == old(nextForwardedId)
      ensures old(starts) + [i] <= starts
      ensures WaitingIn(runtime) < WaitingIn(old(runtime))
      ensures !shuttingDown ==> Progressed(old(runtime), old(starts), runtime, starts)
      ensures !shuttingDown ==> |runtime| == |plan| && runtime[i].state == AfterSpawn(i, old(runtime)[i], old(tick))
      decreases WaitingIn(runtime), 1
    {
      hide CallsInv, OrderlyStarts, SessionsInv, RecordsInv, StopInv, NoNewCalls, WaitingIn, Progressed, ChannelMade,
           OthersStay, Unwired;
      WaitsAt(runtime, i);
      NoNewReflexive(pending);
      var running := Launch(i);
      if !running {
        HandleSpawnFailure(i);
        OnlyStarted(old(runtime), old(starts), i, runtime);
        return;
      }
      if plan[i].readiness == Exec {
        ghost var launched := runtime[i];
        MarkReady(i, runtime[i].generation);
        if !shuttingDown {
          assert old(runtime)[i := launched][i := launched.(state := Ready)] ==
            old(runtime)[i := launched.(state := Ready)];
          StartedFirst(old(runtime), old(starts), i, launched.(state := Ready), runtime, starts);
          OthersProgress(old(runtime)[i := launched.(state := Ready)], old(starts) + [i], runtime, starts, i);
        }
        return;
      }
      var armed := Ask();
      if !armed {
        FailRunningComponent(i);
      }
      OnlyStarted(old(runtime), old(starts), i, runtime);
    }

    /** Starts everything that can be started. */
    method StartEligible()
      requires Valid()
      modifies this
      ensures Valid() && Advances() && accepted == old(accepted) && nextForwardedId == old(nextForwardedId)
      ensures !shuttingDown ==> NoneEligible(plan, runtime)
      ensures !shuttingDown ==> Progressed(old(runtime), old(starts), runtime, starts)
      decreases WaitingIn(runtime), 2
    {
      hide CallsInv, OrderlyStarts, SessionsInv, RecordsInv, StopInv, NoNewCalls, WaitingIn, Progressed,
           DependenciesReady;
      NoNewReflexive(pending);
      NoProgress(runtime, starts);
      if shuttingDown {
        return;
      }
      var changed := true;
      while changed && !shuttingDown
        invariant Valid() && Advances() && accepted == old(accepted) && nextForwardedId == old(nextForwardedId)
        invariant !changed && !shuttingDown ==> NoneEligible(plan, runtime)
        invariant !shuttingDown ==> Progressed(old(runtime), old(starts), runtime, starts)
        decreases WaitingIn(runtime), if changed then 1 else 0
      {
        ghost var calls, records, begun := pending, runtime, starts;
        changed := OnePass();
        NoNewTransitive(old(pending), calls, pending);
        if !shuttingDown {
          ProgressedThen(old(runtime), old(starts), records, begun, runtime, starts);
        }
      }
    }

    /** One pass over the components: true when it started something. */
    method OnePass() returns (changed: bool)
      requires Valid() && !shuttingDown
      modifies this
      ensures Valid() && Advances() && accepted == old(accepted) && nextForwardedId == old(nextForwardedId)
      ensures changed ==> WaitingIn(runtime) < WaitingIn(old(runtime))
      ensures !changed && !shuttingDown ==> NoneEligible(plan, runtime) && WaitingIn(runtime) == WaitingIn(old(runtime))
      ensures !shuttingDown ==> Progressed(old(runtime), old(starts), runtime, starts)
      decreases WaitingIn(runtime), 2, 0
    {
      hide CallsInv, OrderlyStarts, SessionsInv, RecordsInv, StopInv, NoNewCalls, WaitingIn, DependenciesReady,
           Progressed;
      NoNewReflexive(pending);
      NoProgress(runtime, starts);
      changed := false;
      RecordsSizes(plan, runtime, busy, pending, delays, starts, |plan|);
      for k := 0 to |plan|
        invariant Valid() && Advances() && accepted == old(accepted) && nextForwardedId == old(nextForwardedId)
        invariant |runtime| == |plan| && !shuttingDown && Progressed(old(runtime), old(starts), runtime, starts)
        invariant changed ==> WaitingIn(runtime) < WaitingIn(old(runtime))
        invariant !changed ==> runtime == old(runtime)
        invariant !changed ==>
          forall j :: 0 <= j < k ==> runtime[j].state != Waiting || !DependenciesReady(plan, runtime, j)
      {
        if runtime[k].state == Waiting && DependenciesReady(plan, runtime, k) {
          ghost var calls, records, begun := pending, runtime, starts;
          SpawnComponent(k);
          NoNewTransitive(old(pending), calls, pending);
          changed := true;
          if shuttingDown {
            return;
          }
          ProgressedThen(old(runtime), old(starts), records, begun, runtime, starts);
          RecordsSizes(plan, runtime, busy, pending, delays, starts, |plan|);
        }
      }
    }

    /** Event: a child process exited. Exits of an older generation change nothing.

        A provider that exits by itself while ready, on demand and with calls in
        flight leaves its idle timer armed behind it: failing those calls arms the timer,
        after it was removed and before the state changes. No other exit leaves one,
        unless this very exit begins the shutdown, which disarms it again. */
    method OnChildExit(i: nat, generation: nat, pid: int, childFailed: bool)
      requires Valid() && i < |plan| && pid > 0
      modifies this
      ensures Valid() && Advances() && accepted == old(accepted) && nextForwardedId == old(nextForwardedId)
      ensures |old(runtime)| == |old(busy)| == |plan| == |runtime| == |busy|
      ensures old(runtime)[i].generation != generation || old(runtime)[i].pid != pid ==> unchanged(this)
      ensures old(runtime)[i].generation == generation && old(runtime)[i].pid == pid ==>
        && runtime[i].pid <= 0 && starts == old(starts)
        && (var failed := old(runtime)[i].readinessFailed || childFailed;
            var fatal := Fatal(plan[i], old(runtime)[i], failed, world(old(tick)));
            && (shuttingDown <==> old(shuttingDown) || fatal)
            && (busy[i].idleTimer.Some? <==>
                  ReadyAndIdleable(plan[i], old(runtime)[i]) && old(busy)[i].inflight > 0 &&
                  (old(shuttingDown) || !fatal)))
        && (old(shuttingDown) ==> runtime[i].state == Stopped)
        && (!shuttingDown ==>
              && runtime == old(runtime)[i := Exited(plan[i], old(runtime)[i], old(runtime)[i].readinessFailed ||
                                                  childFailed)]
              && NoCallsTo(pending, i) && OthersStay(old(pending), pending, i, sessions)
              && sessions == if brokered && plan[i].readiness == Mipc
                             then Unwired(old(sessions), i, generation) else old(sessions))
    {
      hide CallsInv, OrderlyStarts, SessionsInv, RecordsInv, StopInv, NoNewCalls, WaitingIn, NoCallsTo, AllSettle,
           BusyInv, RestartsOk, Spared, Failures, Fatal, ReadyAndIdleable, OthersStay, Unwired;
      InTransition(plan, runtime, busy, pending, delays, starts, i);
      NoNewReflexive(pending);
      if runtime[i].generation != generation || runtime[i].pid != pid {
        return;
      }
      Leave(i, childFailed);
    }

    /** The process of a component is gone. */
    method Leave(i: nat, childFailed: bool)
      requires Valid() && i < |plan| == |runtime| == |busy| && runtime[i].pid > 0
      modifies this
      ensures Valid() && Advances() && accepted == old(accepted) && nextForwardedId == old(nextForwardedId)
      ensures |plan| == |runtime| == |busy| && runtime[i].pid <= 0 && starts == old(starts)
      ensures var failed := old(runtime)[i].readinessFailed || childFailed;
        var fatal := Fatal(plan[i], old(runtime)[i], failed, world(old(tick)));
        && (shuttingDown <==> old(shuttingDown) || fatal)
        && (busy[i].idleTimer.Some? <==>
              ReadyAndIdleable(plan[i], old(runtime)[i]) && old(busy)[i].inflight > 0 && (old(shuttingDown) || !fatal))
        && (old(shuttingDown) ==> runtime[i].state == Stopped)
        && (!shuttingDown ==> runtime == old(runtime)[i := Exited(plan[i], old(runtime)[i], failed)])
      ensures !shuttingDown ==> NoCallsTo(pending, i) && OthersStay(old(pending), pending, i, sessions)
      ensures !shuttingDown ==>
        sessions == if brokered && plan[i].readiness == Mipc
                    then Unwired(old(sessions), i, old(runtime)[i].generation) else old(sessions)
    {
      hide CallsInv, OrderlyStarts, SessionsInv, RecordsInv, StopInv, NoNewCalls, WaitingIn, NoCallsTo, AllSettle,
           BusyInv, RestartsOk, Spared, Failures, Fatal, ReadyAndIdleable, Exited, OthersStay, Unwired;
      LoseCalls(i);
      ghost var calls := pending;
      AfterExit(i, runtime[i].readinessFailed || childFailed);
      NoNewTransitive(old(pending), calls, pending);
    }

    /** Its channel is closed, and its calls fail. */
    method LoseCalls(i: nat)
      requires Valid() && i < |plan| == |runtime| == |busy| && runtime[i].pid > 0
      modifies `busy, `pending, `outbox, `sessions, `closed
      ensures Base(i) && StopOk() && old(outbox) <= outbox && old(closed) <= closed && NoNewCalls(old(pending), pending)
      ensures |busy| == |plan| && busy[i].inflight == 0 && NoCallsTo(pending, i) &&
        Leavable(plan[i], runtime[i], busy[i])
      ensures Live(runtime[i].state) && runtime[i].restartTimer == None
      ensures busy[i].idleTimer.Some? <==> ReadyAndIdleable(plan[i], runtime[i]) && old(busy)[i].inflight > 0
      ensures OthersStay(old(pending), pending, i, sessions)
      ensures sessions == if brokered && plan[i].readiness == Mipc
                          then Unwired(old(sessions), i, runtime[i].generation) else old(sessions)
    {
      hide CallsInv, OrderlyStarts, SessionsInv, RecordsInv, StopInv, NoNewCalls, WaitingIn, NoCallsTo, AllSettle,
           BusyInv, RestartsOk, Spared, Failures, ReadyAndIdleable, OthersStay, Unwired;
      InTransition(plan, runtime, busy, pending, delays, starts, i);
      RemoveIdleTimer(i, i);
      var before := busy;
      Disconnect(i, brokered && plan[i].readiness == Mipc);
      SettledAt(plan, runtime, before, busy, i);
      NoteLeaving(i, before[i].inflight);
    }

    /** The count goes to zero, where it is already; a timer that is armed by now is noted in the history. */
    method NoteLeaving(i: nat, calls: nat)
      requires Base(i) && i < |plan| == |runtime| == |busy| && busy[i].inflight == 0
      requires busy[i].idleTimer.Some? ==>
        busy[i].idleTimer == Some(runtime[i].generation) && ReadyAndIdleable(plan[i], runtime[i]) && calls > 0
      modifies `busy
      ensures Base(i) && |busy| == |plan| && busy == old(busy)[i := old(busy)[i].(left := busy[i].left)]
      ensures Leavable(plan[i], runtime[i], busy[i])
    {
      hide CallsInv, OrderlyStarts, SessionsInv, RecordsInv;
      var b := busy[i].(inflight := 0);
      assert b == busy[i];
      if b.idleTimer.Some? {
        Leaves(plan, runtime, busy, pending, delays, starts, i, i, calls);
        b := b.(left := Some(Leaving(runtime[i], calls)));
      }
      assert b.left == busy[i].left ==> busy[i := b] == busy;
      busy := busy[i := b];
    }

    /** What becomes of a component whose process is gone and whose callers have been told. */
    method AfterExit(i: nat, failed: bool)
      requires Base(i) && StopOk() && i < |plan| && |runtime| == |plan|
      requires runtime[i].pid > 0 && Live(runtime[i].state) && runtime[i].restartTimer == None
      requires NoCallsTo(pending, i) && |busy| == |plan| && busy[i].inflight == 0
      requires Leavable(plan[i], runtime[i], busy[i])
      modifies this
      ensures Valid() && Advances() && starts == old(starts)
      ensures accepted == old(accepted) && nextForwardedId == old(nextForwardedId)
      ensures |runtime| == |busy| == |old(busy)| == |old(runtime)| == |plan|
      ensures runtime[i].pid <= 0
      ensures shuttingDown <==> old(shuttingDown) || Fatal(plan[i], old(runtime)[i], failed, world(old(tick)))
      ensures busy[i].idleTimer.Some? <==>
        old(busy)[i].idleTimer.Some? &&
        (old(shuttingDown) || !Fatal(plan[i], old(runtime)[i], failed, world(old(tick))))
      ensures old(shuttingDown) ==> runtime[i].state == Stopped
      ensures !shuttingDown ==>
        |old(runtime)| == |plan| && runtime == old(runtime)[i := Exited(plan[i], old(runtime)[i], failed)]
      ensures !shuttingDown ==> sessions == old(sessions) && pending == old(pending)
    {
      hide CallsInv, OrderlyStarts, SessionsInv, RecordsInv, StopInv, NoNewCalls, WaitingIn, NoCallsTo, RestartsOk;
      NoNewReflexive(pending);
      if shuttingDown {
        ExitInShutdown(i);
        return;
      }
      if runtime[i].manualStop {
        ghost var r := runtime[i].(pid := -1, state := Stopped, manualStop := false, readinessFailed := false);
        RestartsAt(plan, runtime, busy, pending, delays, starts, i);
        SameRestarts(plan[i], runtime[i], r, delays[i]);
        Gone(plan, runtime, busy, pending, delays, starts, i, r);
        StillRunning(runtime, done, stopOrder, stoppingIndex, stopLog, i, r);
        runtime := runtime[i := runtime[i].(pid := -1, state := Stopped, manualStop := false,
                                            readinessFailed := false)];
        return;
      }
      ghost var r := runtime[i].(pid := -1, readinessFailed := false);
      StillInTransition(plan, runtime, busy, pending, delays, starts, i, r);
      StillRunning(runtime, done, stopOrder, stoppingIndex, stopLog, i, r);
      runtime := runtime[i := runtime[i].(pid := -1, readinessFailed := false)];
      ScheduleOrFail(i, failed);
      RecordsSizes(plan, runtime, busy, pending, delays, starts, |plan|);
    }

    /** During shutdown an exit is final, and the exit of the component being stopped moves the sequence on. */
    method ExitInShutdown(i: nat)
      requires Base(i) && StopOk() && shuttingDown && i < |plan| && |runtime| == |plan|
      requires runtime[i].pid > 0 && runtime[i].restartTimer == None && NoCallsTo(pending, i)
      requires |busy| == |plan| && busy[i].inflight == 0 && Leavable(plan[i], runtime[i], busy[i])
      modifies this
      ensures Valid() && Advances() && starts == old(starts)
      ensures accepted == old(accepted) && nextForwardedId == old(nextForwardedId)
      ensures |runtime| == |busy| == |old(busy)| == |plan|
      ensures runtime[i].pid <= 0 && runtime[i].state == Stopped && busy[i].idleTimer == old(busy)[i].idleTimer
    {
      hide CallsInv, OrderlyStarts, SessionsInv, RecordsInv, StopInv, NoNewCalls, WaitingIn, StopSequence, AllSettle,
           RestartsOk, QuietStays;
      RestartsAt(plan, runtime, busy, pending, delays, starts, i);
      NoNewReflexive(pending);
      ghost var r := runtime[i].(pid := -1, state := Stopped);
      SameRestarts(plan[i], runtime[i], r, delays[i]);
      Gone(plan, runtime, busy, pending, delays, starts, i, r);
      StopLoses(runtime, done, stopOrder, stoppingIndex, stopLog, i, r);
      runtime := runtime[i := runtime[i].(pid := -1, state := Stopped)];
      if stoppingIndex == Some(i) {
        stoppingIndex := None;
        ghost var before := runtime;
        StopNext();
        FewerNoNew(old(pending), pending);
        LeftAlone(before, runtime, old(busy), busy, i);
      }
    }

    // ---- Requests to start and stop ----

    /** A component is asked to stop, and not to come back by itself. */
    method BrokerStop(i: nat)
      requires Valid() && i < |plan|
      modifies this
      ensures Valid() && Advances() && starts == old(starts) && shuttingDown == old(shuttingDown)
      ensures accepted == old(accepted) && nextForwardedId == old(nextForwardedId)
      ensures |old(runtime)| == |plan| == |runtime| == |busy|
      ensures busy[i].idleTimer == None && OthersStay(old(pending), pending, i, sessions)
      ensures var r := old(runtime)[i];
        runtime == old(runtime)[i := if r.pid > 0 then r.(manualStop := true, state := Stopping)
                                     else r.(manualStop := true, restartTimer := None, state := Stopped)]
      ensures sessions == if brokered && old(runtime)[i].pid > 0 && old(runtime)[i].state != Stopping
                          then Unwired(old(sessions), i, old(runtime)[i].generation) else old(sessions)
    {
      hide CallsInv, OrderlyStarts, SessionsInv, RecordsInv, StopInv, NoNewCalls, WaitingIn, Fewer, RestartsOk,
           OthersStay, Unwired;
      OthersSpared(pending, i, 0, sessions);
      InTransition(plan, runtime, busy, pending, delays, starts, i);
      NoNewReflexive(pending);
      RemoveIdleTimer(i, |plan|);
      if runtime[i].pid <= 0 {
        Rest(i);
      } else if runtime[i].state != Stopping {
        StopRunning(i);
      } else {
        StopForGood(i);
      }
      RecordsSizes(plan, runtime, busy, pending, delays, starts, |plan|);
    }

    /** A component that is stopping anyway will not come back by itself. */
    method StopForGood(i: nat)
      requires Valid() && i < |plan| == |runtime| && runtime[i].pid > 0 && runtime[i].state == Stopping
      modifies `runtime
      ensures Valid() && WaitingIn(runtime) == WaitingIn(old(runtime))
      ensures runtime == old(runtime)[i := old(runtime)[i].(manualStop := true)]
    {
      hide CallsInv, OrderlyStarts, SessionsInv, RecordsInv, StopInv, WaitingIn;
      InTransition(plan, runtime, busy, pending, delays, starts, i);
      ghost var r := runtime[i].(manualStop := true);
      KeepsStopping(plan, runtime, busy, pending, delays, starts, i, r);
      LeavesReady(runtime, shuttingDown, done, stopOrder, stoppingIndex, stopLog, i, r);
      runtime := runtime[i := runtime[i].(manualStop := true)];
    }

    /** A running component is asked to stop. */
    method StopRunning(i: nat)
      requires Valid() && i < |plan| == |runtime| && runtime[i].pid > 0 && runtime[i].state != Stopping
      modifies `runtime, `busy, `pending, `outbox, `sessions, `closed
      ensures Valid() && old(outbox) <= outbox && old(closed) <= closed && NoNewCalls(old(pending), pending)
      ensures QuietStays(runtime, old(busy), busy) && WaitingIn(runtime) == WaitingIn(old(runtime))
      ensures runtime == old(runtime)[i := old(runtime)[i].(manualStop := true, state := Stopping)]
      ensures OthersStay(old(pending), pending, i, sessions)
      ensures sessions == if brokered then Unwired(old(sessions), i, old(runtime)[i].generation) else old(sessions)
    {
      hide CallsInv, OrderlyStarts, SessionsInv, RecordsInv, StopInv, NoNewCalls, WaitingIn, Fewer, QuietStays,
           OthersStay, Unwired;
      InTransition(plan, runtime, busy, pending, delays, starts, i);
      EnterStopping(i, runtime[i].readinessFailed, true, brokered);
      LeavesReady(old(runtime), shuttingDown, done, stopOrder, stoppingIndex, stopLog, i, runtime[i]);
      FewerNoNew(old(pending), pending);
    }

    /** A component without a process is simply put down as stopped. */
    method Rest(i: nat)
      requires Valid() && i < |plan| == |runtime| && runtime[i].pid <= 0
      modifies `runtime
      ensures Valid() && WaitingIn(runtime) <= WaitingIn(old(runtime))
      ensures runtime == old(runtime)[i := old(runtime)[i].(manualStop := true, restartTimer := None, state := Stopped)]
    {
      hide CallsInv, OrderlyStarts, SessionsInv, RecordsInv, StopInv, WaitingIn;
      ghost var r := runtime[i].(manualStop := true, restartTimer := None, state := Stopped);
      Halted(plan, runtime, busy, pending, delays, starts, i, r);
      RestsInOrder(runtime, shuttingDown, done, stopOrder, stoppingIndex, stopLog, i, r);
      runtime := runtime[i := runtime[i].(manualStop := true, restartTimer := None, state := Stopped)];
    }

    /** A component that is down is given a fresh restart budget and started as soon as it may be. */
    method Wake(i: nat)
      requires Held(i) && !shuttingDown && (runtime[i].state == Stopped || runtime[i].state == Failed)
      modifies this
      ensures Valid() && Evolves() && NoNewCalls(old(pending), pending)
      ensures accepted == old(accepted) && nextForwardedId == old(nextForwardedId)
      ensures |runtime| == |busy| == |plan|
      ensures !shuttingDown ==> NoneEligible(plan, runtime)
      ensures !shuttingDown ==> Progressed(Reset(old(runtime), i), old(starts), runtime, starts)
    {
      hide CallsInv, OrderlyStarts, SessionsInv, RecordsInv, StopInv, NoNewCalls, WaitingIn, RestartsOk, Progressed;
      ghost var r := runtime[i].(manualStop := false, readinessFailed := false, restartCount := 0, state := Waiting);
      Woken(plan, runtime, busy, pending, delays, starts, i, r);
      NotYet(runtime, runtime[i := r], done, stopOrder, stoppingIndex, stopLog);
      delays := delays[i := []];
      runtime := runtime[i := runtime[i].(manualStop := false, readinessFailed := false, restartCount := 0,
                                          state := Waiting)];
      StartEligible();
      RecordsSizes(plan, runtime, busy, pending, delays, starts, |plan|);
    }

    /** The router wants component `i` up: false when it will not come up. */
    method Activate(i: nat) returns (ok: bool)
      requires Held(i) && runtime[i].state != Ready
      modifies this
      ensures Evolves() && NoNewCalls(old(pending), pending)
      ensures accepted == old(accepted) && nextForwardedId == old(nextForwardedId)
      ensures if ok then Valid() && |runtime| == |plan| && runtime[i].state != Failed
              else unchanged(this) || (Valid() && |runtime| == |plan| && runtime[i].state == Failed)
      ensures !ok ==>
        shuttingDown || (|runtime| == |plan| && (runtime[i].state == Stopping || runtime[i].state == Failed))
      ensures old(shuttingDown) || old(runtime)[i].state == Stopping ==> !ok
      ensures old(shuttingDown) || old(runtime)[i].state == Stopping ==> unchanged(this)
      ensures !old(shuttingDown) && OnItsWayUp(old(runtime)[i].state) ==> ok && unchanged(this)
      ensures !shuttingDown && (old(runtime)[i].state == Stopped || old(runtime)[i].state == Failed) ==>
        NoneEligible(plan, runtime) && Progressed(Reset(old(runtime), i), old(starts), runtime, starts)
    {
      hide CallsInv, OrderlyStarts, SessionsInv, RecordsInv, StopInv, NoNewCalls, WaitingIn, Progressed, NoneEligible;
      NoNewReflexive(pending);
      if shuttingDown {
        return false;
      }
      if OnItsWayUp(runtime[i].state) {
        NoLongerHeld(plan, runtime, busy, pending, delays, starts, i);
        return true;
      }
      if runtime[i].state == Stopping {
        return false;
      }
      Wake(i);
      ok := runtime[i].state != Failed;
    }

    /** Event: a client asks for component `i` to be started. */
    method BrokerStart(i: nat)
      requires Valid() && i < |plan|
      modifies this
      ensures Valid() && Evolves()
      ensures accepted == old(accepted) && nextForwardedId == old(nextForwardedId)
      ensures |old(runtime)| == |plan| && (old(shuttingDown) ==> unchanged(this))
      ensures !shuttingDown ==> Progressed(
        if old(runtime)[i].state == Stopped || old(runtime)[i].state == Failed
        then Reset(old(runtime), i)
        else old(runtime), old(starts), runtime, starts)
      ensures |old(busy)| == |runtime| == |busy| == |plan|
      ensures if old(runtime)[i].state == Stopped || old(runtime)[i].state == Failed || old(runtime)[i].state == Waiting
        then !shuttingDown ==> NoneEligible(plan, runtime)
        else runtime == old(runtime) && starts == old(starts) && pending == old(pending)
      ensures !shuttingDown && plan[i].launchable && runtime[i].state == Ready ==>
        busy[i].idleTimer == IdleAfter(plan[i], runtime[i], busy[i].inflight)
      ensures old(runtime)[i].state == Ready && !plan[i].launchable ==> busy == old(busy)
    {
      hide CallsInv, OrderlyStarts, SessionsInv, RecordsInv, StopInv, NoNewCalls, WaitingIn, Progressed, NoneEligible;
      NoProgress(runtime, starts);
      InTransition(plan, runtime, busy, pending, delays, starts, i);
      Fresh(plan, runtime, busy, pending, delays, starts);
      if shuttingDown {
        return;
      }
      if runtime[i].state == Stopped || runtime[i].state == Failed {
        Wake(i);
      } else if runtime[i].state == Waiting {
        StartEligible();
      }
      RecordsSizes(plan, runtime, busy, pending, delays, starts, |plan|);
      if plan[i].launchable && runtime[i].state == Ready {
        Activity(i);
      }
    }

    /** Event: a component was used; its idle timeout starts again. */
    method Activity(i: nat)
      requires Valid() && i < |plan|
      modifies `busy
      ensures Valid() && |runtime| == |plan| == |old(busy)|
      ensures busy == old(busy)[i := old(busy)[i].(idleTimer := IdleAfter(plan[i], runtime[i], old(busy)[i].inflight))]
    {
      hide CallsInv, OrderlyStarts, SessionsInv, RecordsInv, StopInv;
      RecordsSizes(plan, runtime, busy, pending, delays, starts, |plan|);
      Rearmed(plan, runtime, busy, pending, delays, starts, i);
      ArmIdleTimeout(i);
    }

    // ---- Calls ----

    ghost function Look(): View
      reads this
    {
      View(runtime, pending, outbox, starts, shuttingDown)
    }

    /** A call was accepted for this provider, until this deadline. If its timer could not be had it has failed;
        otherwise it was served as far as that goes. */
    twostate predicate Handed(id: nat, session: nat, request: nat, provider: nat, due: nat, armed: bool, time: nat)
      requires |old(runtime)| == |plan| && provider < |plan|
      reads this
    {
      && accepted == old(accepted)[id := Acceptance(session, request, provider, due)]
      && if armed then
           Served(plan, old(Look()), PendingCall(id, session, request, provider, 0, due, false), Look(), clock(time),
                  old(Wired(provider, runtime[provider].generation)) && world(time + 1))
         else
           && runtime == old(runtime) && pending == old(pending)
           && outbox == old(outbox) + [Reply(session, request, Some(id), "CALL_FAILED")]
    }

    /** Event: a connected peer makes a call. It is refused at once, or it is given a forwarded id. */
    method RouteCall(session: nat, request: nat, target: Target, deadline: Option<nat>) returns (ghost id: Option<nat>)
      requires Valid() && session in sessions && ResolvedIn(target, |plan|)
      modifies this
      ensures Valid() && Evolves()
      ensures |old(runtime)| == |plan|
      ensures id.Some? <==>
        && Resolve(target, old(runtime)).Some?
        && Admissible(old(pending), old(nextForwardedId), deadline, clock(old(tick)))
      ensures id.Some? ==>
        id.value == old(nextForwardedId) &&
        Handed(id.value, session, request, Resolve(target, old(runtime)).value, Due(deadline, clock(old(tick))),
               world(old(tick) + 1), old(tick) + 2)
      ensures id.None? ==>
        && outbox == old(outbox) + [Reply(session, request, None, RefusalOf(target, Resolve(target, old(runtime)),
                                                                            deadline, clock(old(tick))))]
        && unchanged(`accepted, `nextForwardedId, `pending, `runtime, `busy)
    {
      hide CallsInv, OrderlyStarts, SessionsInv, RecordsInv, StopInv, NoNewCalls, WaitingIn;
      RecordsSizes(plan, runtime, busy, pending, delays, starts, |plan|);
      var provider: Option<nat>;
      match target {
        case Malformed =>
          Refuse(session, request, "BAD_TARGET");
          return None;
        case Listed(candidates) =>
          provider := FirstNotFailed(candidates);
        case Named(component) =>
          provider := component;
      }
      if provider.None? {
        Refuse(session, request, "NO_PROVIDER");
        return None;
      }
      id := QueueProviderCall(session, request, provider.value, deadline);
    }

    /** Replies with an error that settles no forwarded call. */
    method Refuse(session: nat, request: nat, code: string)
      requires Valid() && session in sessions
      modifies `outbox
      ensures Valid() && outbox == old(outbox) + [Reply(session, request, None, code)]
    {
      hide CallsInv, OrderlyStarts, SessionsInv, RecordsInv, StopInv;
      OtherReply(accepted, pending, outbox, closed, nextForwardedId, Reply(session, request, None, code));
      SendReply(session, request, None, code);
    }

    /** The first candidate that has not failed. */
    method FirstNotFailed(candidates: seq<nat>) returns (provider: Option<nat>)
      requires forall c :: c in candidates ==> c < |runtime|
      ensures provider == FirstUsable(candidates, runtime)
    {
      for k := 0 to |candidates|
        invariant FirstUsable(candidates[k..], runtime) == FirstUsable(candidates, runtime)
      {
        assert candidates[k..][1..] == candidates[k+1..] && candidates[k] in candidates;
        if runtime[candidates[k]].state != Failed {
          return Some(candidates[k]);
        }
      }
      provider := None;
    }

    method QueueProviderCall(session: nat, request: nat, provider: nat,
                             deadline: Option<nat>) returns (ghost id: Option<nat>)
      requires Valid() && session in sessions && provider < |plan|
      modifies this
      ensures Valid() && Evolves()
      ensures id.Some? <==> Admissible(old(pending), old(nextForwardedId), deadline, clock(old(tick)))
      ensures id.Some? ==>
        id.value == old(nextForwardedId) &&
        Handed(id.value, session, request, provider, Due(deadline, clock(old(tick))), world(old(tick) + 1),
               old(tick) + 2)
      ensures id.None? ==>
        && outbox == old(outbox) + [Reply(session, request, None, RefusalOf(Named(Some(provider)), Some(provider),
                                                                            deadline, clock(old(tick))))]
        && unchanged(`accepted, `nextForwardedId, `pending, `runtime, `busy)
    {
      hide CallsInv, OrderlyStarts, SessionsInv, RecordsInv, StopInv, NoNewCalls, WaitingIn, Served, Refusal, RefusalOf,
           Admissible;
      var now := Now();
      var due := if deadline.Some? then deadline.value else now + 5000;
      RefusalSays(pending, nextForwardedId, deadline, now, provider);
      var refusal := Refusal(pending, nextForwardedId, due, now);
      if refusal.Some? {
        Refuse(session, request, refusal.value);
        return None;
      }
      id := Some(nextForwardedId);
      Accept(session, request, provider, due);
    }

    /** The call gets the next id. */
    method Accept(session: nat, request: nat, provider: nat, due: nat)
      requires Valid() && session in sessions && provider < |plan| && nextForwardedId != MAX_U64
      requires |pending| < MAX_PENDING_CALLS
      modifies this
      ensures Valid() && Evolves() && |old(runtime)| == |plan|
      ensures Handed(old(nextForwardedId), session, request, provider, due, world(old(tick)), old(tick) + 1)
    {
      hide CallsInv, OrderlyStarts, SessionsInv, RecordsInv, StopInv, NoNewCalls, WaitingIn, Served;
      IdBound(accepted, pending, outbox, closed, nextForwardedId);
      RecordsSizes(plan, runtime, busy, pending, delays, starts, |plan|);
      var armed := Ask();
      if armed {
        Enqueue(session, request, provider, due);
      } else {
        AcceptAndFail(session, request, provider, due);
      }
    }

    /** The call is queued under the next id, and served as far as that goes. */
    method Enqueue(session: nat, request: nat, provider: nat, due: nat)
      requires Valid() && session in sessions && provider < |plan|
      requires |pending| < MAX_PENDING_CALLS && nextForwardedId < MAX_U64
      modifies this
      ensures Valid() && Evolves()
      ensures Handed(old(nextForwardedId), session, request, provider, due, true, old(tick))
    {
      hide CallsInv, OrderlyStarts, SessionsInv, RecordsInv, StopInv, NoNewCalls, WaitingIn;
      IdBound(accepted, pending, outbox, closed, nextForwardedId);
      Push(session, request, provider, due);
      Serve(provider);
    }

    /** The deadline timer could not be made: the id is spent and the caller is told. */
    method AcceptAndFail(session: nat, request: nat, provider: nat, due: nat)
      requires Valid() && session in sessions && provider < |plan|
      requires |pending| < MAX_PENDING_CALLS && nextForwardedId < MAX_U64
      modifies `nextForwardedId, `accepted, `outbox
      ensures Valid() && nextForwardedId == old(nextForwardedId) + 1
      ensures |runtime| == |plan| && Handed(old(nextForwardedId), session, request, provider, due, false, 0)
    {
      hide CallsInv, OrderlyStarts, SessionsInv, RecordsInv, StopInv, Served;
      RecordsSizes(plan, runtime, busy, pending, delays, starts, |plan|);
      ghost var p := PendingCall(nextForwardedId, session, request, provider, 0, due, false);
      AcceptStep(accepted, pending, outbox, closed, nextForwardedId, p);
      accepted := accepted[nextForwardedId := AcceptanceOf(p)];
      AnswerStep(accepted, pending + [p], outbox, closed, nextForwardedId + 1, |pending|, "CALL_FAILED");
      assert Without(pending + [p], |pending|) == pending;
      SendReply(session, request, Some(nextForwardedId), "CALL_FAILED");
      nextForwardedId := nextForwardedId + 1;
    }

    /** Puts a call at the end of the table. */
    method Push(session: nat, request: nat, provider: nat, due: nat)
      requires Valid() && session in sessions && provider < |plan|
      requires |pending| < MAX_PENDING_CALLS && nextForwardedId < MAX_U64
      modifies `nextForwardedId, `accepted, `pending
      ensures Held(provider) && nextForwardedId == old(nextForwardedId) + 1
      ensures accepted == old(accepted)[old(nextForwardedId) := Acceptance(session, request, provider, due)]
      ensures pending == old(pending) + [PendingCall(old(nextForwardedId), session, request, provider, 0, due, false)]
      ensures OnlyLast(runtime, pending)
    {
      hide CallsInv, OrderlyStarts, SessionsInv, RecordsInv, StopInv;
      InTransition(plan, runtime, busy, pending, delays, starts, provider);
      Fresh(plan, runtime, busy, pending, delays, starts);
      var p := PendingCall(nextForwardedId, session, request, provider, 0, due, false);
      AcceptStep(accepted, pending, outbox, closed, nextForwardedId, p);
      SessionsQueued(|plan|, sessions, closed, nextSession, pending, p);
      Queued(plan, runtime, busy, pending, delays, starts, p);
      accepted := accepted[nextForwardedId := AcceptanceOf(p)];
      pending := pending + [p];
      nextForwardedId := nextForwardedId + 1;
    }

    /** Delivers the call just put at the end of the table, or wakes its provider for it.
        Waking it may already have served, failed or removed the call, and then the position
        that was remembered points past the end. */
    method Serve(provider: nat)
      requires Held(provider) && pending != [] && OnlyLast(runtime, pending)
      requires var p := pending[|pending|-1]; p.provider == provider && !p.delivered
      modifies this
      ensures Valid() && Evolves()
      ensures accepted == old(accepted) && nextForwardedId == old(nextForwardedId)
      ensures |old(runtime)| == |plan| && provider < |plan|
      ensures var n := |old(pending)| - 1;
        Served(plan, old(Look()).(pending := old(pending)[..n]), old(pending)[n], Look(), clock(old(tick)),
               old(Wired(provider, runtime[provider].generation)) && world(old(tick) + 1))
    {
      hide CallsInv, OrderlyStarts, SessionsInv, RecordsInv, StopInv, NoNewCalls, WaitingIn, OnlyLast, NoneEligible,
           Progressed, Undeliverable;
      RecordsSizes(plan, runtime, busy, pending, delays, starts, provider);
      if runtime[provider].state == Ready {
        DeliverLast(provider);
      } else {
        Await(provider);
      }
    }

    /** The provider is not ready: it is waited for, or woken, or the last call fails. */
    method Await(provider: nat)
      requires Held(provider) && pending != [] && OnlyLast(runtime, pending) && runtime[provider].state != Ready
      requires var p := pending[|pending|-1]; p.provider == provider && !p.delivered
      modifies this
      ensures Valid() && Evolves()
      ensures accepted == old(accepted) && nextForwardedId == old(nextForwardedId)
      ensures |old(runtime)| == |plan| && provider < |plan|
      ensures var n := |old(pending)| - 1;
        Served(plan, old(Look()).(pending := old(pending)[..n]), old(pending)[n], Look(), clock(old(tick)),
               old(Wired(provider, runtime[provider].generation)) && world(old(tick) + 1))
    {
      hide CallsInv, OrderlyStarts, SessionsInv, RecordsInv, StopInv, NoNewCalls, WaitingIn, Fewer, NoneEligible,
           Progressed, Undeliverable;
      RecordsSizes(plan, runtime, busy, pending, delays, starts, provider);
      var index := |pending| - 1;
      var ok := Activate(provider);
      if !ok {
        NoNewLast(old(pending), pending);
        if Valid() {
          InTransition(plan, runtime, busy, pending, delays, starts, provider);
          Fresh(plan, runtime, busy, pending, delays, starts);
        }
        assert index < |pending| ==> pending[index].forwardedId == old(pending)[index].forwardedId;
        Withdraw(provider, index);
      }
    }

    /** The provider is ready: the last call is delivered, or fails. */
    method DeliverLast(provider: nat)
      requires Held(provider) && pending != [] && OnlyLast(runtime, pending) && runtime[provider].state == Ready
      requires var p := pending[|pending|-1]; p.provider == provider && !p.delivered
      modifies `pending, `busy, `outbox, `tick
      ensures Valid() && old(outbox) <= outbox
      ensures var n, generation := |old(pending)| - 1, runtime[provider].generation;
        var p, rest := old(pending)[n], old(pending)[..n];
        var sent := clock(old(tick)) < p.deadlineMs && Wired(provider, generation) && world(old(tick) + 1);
        && pending == (if sent then rest + [p.(delivered := true, providerGeneration := generation)] else rest)
        && outbox == (if sent then old(outbox) else old(outbox) + [Undeliverable(p, clock(old(tick)))])
    {
      hide CallsInv, OrderlyStarts, SessionsInv, RecordsInv, StopInv, IdleMoves, OnlyLast, BusyInv, Without,
           Undeliverable;
      RecordsSizes(plan, runtime, busy, pending, delays, starts, provider);
      ghost var p, generation := pending[|pending| - 1], runtime[provider].generation;
      AtTheEnd(pending, p.(delivered := true, providerGeneration := generation));
      var _ := Deliver(|pending| - 1, runtime[provider].generation);
      ServedLast(plan, runtime, old(busy), old(pending), busy, pending, delays, starts, provider);
    }

    /** Fails the call at the given position, if there still is one. */
    method Withdraw(ghost provider: nat, index: nat)
      requires Held(provider) && |pending| <= index + 1 && OnlyLast(runtime, pending)
      requires (index >= |pending| ==> Valid())
      modifies `pending, `busy, `outbox
      ensures Valid()
      ensures if index < |old(pending)|
        then pending == Without(old(pending), index) &&
             outbox == old(outbox) + [ErrorTo(old(pending)[index], "COMPONENT_UNAVAILABLE")]
        else pending == old(pending) && outbox == old(outbox)
    {
      hide CallsInv, OrderlyStarts, SessionsInv, RecordsInv, StopInv, Fewer, AllSettle, OnlyLast;
      RecordsSizes(plan, runtime, busy, pending, delays, starts, provider);
      FailPending(index, "COMPONENT_UNAVAILABLE");
      if index < |old(pending)| {
        LastGone(plan, runtime, old(busy), old(pending), busy, pending, delays, starts, provider);
      } else {
        AfterClosing(plan, runtime, old(busy), old(pending), busy, pending, delays, starts, |plan|);
      }
    }

    /** Event: a component answers a call. The answer counts only if the call was delivered to this very
        component and generation; any other answer changes nothing. */
    method ProviderReply(session: nat, id: nat, code: string)
      requires Valid() && session in sessions && sessions[session].ComponentPeer?
      modifies `pending, `busy, `outbox
      ensures Valid()
      ensures !IsPending(old(pending), id) ==> unchanged(this)
      ensures forall k :: 0 <= k < |old(pending)| && old(pending)[k].forwardedId == id ==>
        var p := old(pending)[k];
        if p.delivered && sessions[session] == ComponentPeer(p.provider, p.providerGeneration)
        then pending == Without(old(pending), k)
          && outbox == old(outbox) + [Reply(p.callerSession, p.callerRequest, Some(id), code)]
        else unchanged(this)
    {
      hide CallsInv, OrderlyStarts, SessionsInv, RecordsInv, StopInv, BusyInv, AllSettle;
      var index := FindPending(id);
      CallsDiffer(accepted, pending, outbox, closed, nextForwardedId);
      if index == |pending| {
        return;
      }
      var p, peer := pending[index], sessions[session];
      PeerGeneration(|plan|, sessions, closed, nextSession, pending, session);
      RecordsSizes(plan, runtime, busy, pending, delays, starts, |plan|);
      UndeliveredGeneration(plan, runtime, busy, pending, index);
      if peer.component != p.provider || peer.generation != p.providerGeneration {
        return;
      }
      CallerConnected(|plan|, sessions, closed, nextSession, pending, index);
      AnswerStep(accepted, pending, outbox, closed, nextForwardedId, index, code);
      ErasePending(index);
      SendReply(p.callerSession, p.callerRequest, Some(p.forwardedId), code);
      SessionsFewer(|plan|, sessions, closed, nextSession, old(pending), pending, None);
      FewerWithout(old(pending), index);
      AfterClosing(plan, runtime, old(busy), old(pending), busy, pending, delays, starts, |plan|);
    }

    /** The position of a pending call, or the number of pending calls. */
    method FindPending(id: nat) returns (index: nat)
      ensures index <= |pending|
      ensures index < |pending| ==> pending[index].forwardedId == id
      ensures index == |pending| ==> !IsPending(pending, id)
    {
      index := 0;
      while index < |pending|
        invariant index <= |pending| && forall k :: 0 <= k < index ==> pending[k].forwardedId != id
      {
        if pending[index].forwardedId == id {
          return;
        }
        index := index + 1;
      }
    }

    /** Event: a call's deadline timer fired. */
    method CallTimeout(id: nat)
      requires Valid()
      modifies `pending, `busy, `outbox
      ensures Valid() && old(outbox) <= outbox
      ensures !IsPending(pending, id)
      ensures !IsPending(old(pending), id) ==> unchanged(this)
      ensures forall k :: 0 <= k < |old(pending)| && old(pending)[k].forwardedId == id ==>
        pending == Without(old(pending), k) && outbox == old(outbox) + [ErrorTo(old(pending)[k], "CALL_TIMEOUT")]
    {
      hide CallsInv, OrderlyStarts, SessionsInv, RecordsInv, StopInv, BusyInv, AllSettle, Fewer;
      var index := FindPending(id);
      RecordsSizes(plan, runtime, busy, pending, delays, starts, |plan|);
      if index == |pending| {
        return;
      }
      CallsDiffer(accepted, pending, outbox, closed, nextForwardedId);
      PendingWithout(pending, index, id);
      FailPending(index, "CALL_TIMEOUT");
      AfterClosing(plan, runtime, old(busy), old(pending), busy, pending, delays, starts, |plan|);
    }

    // ---- Sessions ----

    /** Event: a client connects. */
    method OpenPublicSession()
      requires Valid()
      modifies `sessions, `nextSession
      ensures Valid() && sessions == old(sessions)[old(nextSession) := PublicPeer] && old(nextSession) !in old(sessions)
    {
      hide CallsInv, OrderlyStarts, RecordsInv, StopInv;
      SessionOpens(|plan|, sessions, closed, nextSession, pending, PublicPeer);
      sessions := sessions[nextSession := PublicPeer];
      nextSession := nextSession + 1;
    }

    /** Event: a session ends. If it was the channel of a running component, that component has failed. */
    method CloseSession(session: nat, notify: bool)
      requires Valid()
      modifies this
      ensures Valid() && Advances()
      ensures accepted == old(accepted) && nextForwardedId == old(nextForwardedId) && starts == old(starts)
      ensures session !in old(sessions) ==> unchanged(this)
      ensures session in old(sessions) ==> session in closed
      ensures |runtime| == |old(runtime)| == |plan|
      ensures session in old(sessions) && notify && old(sessions)[session].ComponentPeer? ==>
        var c := old(sessions)[session].component;
        && c < |plan|
        && (var failing := old(runtime)[c].generation == old(sessions)[session].generation && old(runtime)[c].pid > 0;
            if failing && old(runtime)[c].state != Stopping then
              && runtime == old(runtime)[c := old(runtime)[c].(state := Stopping, readinessFailed := true)]
              && NoCallsTo(pending, c)
            else
              pending == AfterClose(old(pending), session, old(sessions)[session]) && runtime == old(runtime))
      ensures session in old(sessions) && !(notify && old(sessions)[session].ComponentPeer?) ==>
        pending == AfterClose(old(pending), session, old(sessions)[session]) && runtime == old(runtime)
    {
      hide CallsInv, OrderlyStarts, SessionsInv, RecordsInv, StopInv, BusyInv, AllSettle, Fewer, NoNewCalls, WaitingIn,
           NoCallsTo;
      NoNewReflexive(pending);
      RecordsSizes(plan, runtime, busy, pending, delays, starts, |plan|);
      if session !in sessions {
        return;
      }
      var peer := sessions[session];
      PeerGeneration(|plan|, sessions, closed, nextSession, pending, session);
      DropSession(session);
      AfterClosing(plan, runtime, old(busy), old(pending), busy, pending, delays, starts, |plan|);
      FewerNoNew(old(pending), pending);
      if notify && peer.ComponentPeer? && runtime[peer.component].generation == peer.generation
         && runtime[peer.component].pid > 0 && runtime[peer.component].state != Stopping {
        ghost var calls := pending;
        FailRunningComponent(peer.component);
        NoNewTransitive(old(pending), calls, pending);
      }
    }

    // ---- Timers and readiness ----

    /** Event: a starting component's readiness check failed or timed out. */
    method ReadinessFailed(i: nat, generation: nat)
      requires Valid() && i < |plan|
      modifies this
      ensures Valid() && Advances()
      ensures accepted == old(accepted) && nextForwardedId == old(nextForwardedId) && starts == old(starts)
      ensures |old(runtime)| == |plan|
      ensures old(runtime)[i].generation != generation || old(runtime)[i].state != Starting ==> unchanged(this)
      ensures old(runtime)[i].generation == generation && old(runtime)[i].state == Starting &&
              old(runtime)[i].pid > 0 ==>
        runtime == old(runtime)[i := old(runtime)[i].(state := Stopping, readinessFailed := true)] &&
        NoCallsTo(pending, i)
    {
      hide CallsInv, OrderlyStarts, SessionsInv, RecordsInv, StopInv, NoNewCalls, WaitingIn, NoCallsTo;
      NoNewReflexive(pending);
      RecordsSizes(plan, runtime, busy, pending, delays, starts, |plan|);
      if runtime[i].generation == generation && runtime[i].state == Starting {
        FailRunningComponent(i);
      }
    }

    /** Event: a restart timer fired. */
    method RestartTimerFired(i: nat)
      requires Valid() && i < |plan|
      modifies this
      ensures Valid() && Evolves() && accepted == old(accepted) && nextForwardedId == old(nextForwardedId)
      ensures |old(runtime)| == |plan|
      ensures old(runtime)[i].restartTimer.None? ==> unchanged(this)
      ensures old(runtime)[i].restartTimer.Some? && !shuttingDown ==>
        && NoneEligible(plan, runtime)
        && Progressed(old(runtime)[i := old(runtime)[i].(restartTimer := None, state := Waiting)], old(starts),
                      runtime, starts)
    {
      hide CallsInv, OrderlyStarts, SessionsInv, RecordsInv, StopInv, NoNewCalls, WaitingIn, Progressed;
      InTransition(plan, runtime, busy, pending, delays, starts, i);
      if runtime[i].restartTimer.None? {
        return;
      }
      var generation := runtime[i].restartTimer.value.generation;
      if runtime[i].generation != generation || runtime[i].state != Backoff || shuttingDown {
        return;
      }
      ghost var r := runtime[i].(restartTimer := None, state := Waiting);
      Retried(plan, runtime, busy, pending, delays, starts, i, r);
      NotYet(runtime, runtime[i := r], done, stopOrder, stoppingIndex, stopLog);
      runtime := runtime[i := runtime[i].(restartTimer := None, state := Waiting)];
      StartEligible();
    }

    /** Event: an idle timer fired. It stops its component exactly when that is ready, and then
        no call delivered to it is pending. */
    method IdleTimerFired(i: nat)
      requires Valid() && i < |plan|
      modifies this
      ensures Valid() && Advances()
      ensures accepted == old(accepted) && nextForwardedId == old(nextForwardedId) && starts == old(starts)
      ensures |old(runtime)| == |old(busy)| == |runtime| == |busy| == |plan|
      ensures busy[i].idleTimer == None
      ensures if old(busy)[i].idleTimer.Some? && old(runtime)[i].state == Ready
              then runtime[i].state == Stopping && NoDeliveredTo(old(pending), i)
              else runtime == old(runtime) && pending == old(pending)
    {
      hide CallsInv, OrderlyStarts, SessionsInv, RecordsInv, StopInv, NoNewCalls, WaitingIn, NoDeliveredTo;
      NoNewReflexive(pending);
      InTransition(plan, runtime, busy, pending, delays, starts, i);
      if busy[i].idleTimer.None? {
        return;
      }
      IdleMeansIdle(plan, runtime, busy, pending, delays, starts, i);
      var generation := busy[i].idleTimer.value;
      RemoveIdleTimer(i, |plan|);
      if runtime[i].generation == generation && runtime[i].state == Ready && busy[i].inflight == 0 {
        BrokerStop(i);
      }
    }

    // ---- Whole runs ----

    constructor (plan: seq<ComponentPlan>, brokered: bool, eager: set<nat>, world: nat -> bool, clock: nat -> nat)
      requires forall i :: 0 <= i < |plan| ==> Supported(plan[i])
      ensures Valid() && !shuttingDown && accepted == map[] && outbox == [] && starts == [] && handled == []
      ensures this.plan == plan && |runtime| == |plan|
      ensures forall i :: 0 <= i < |plan| ==> runtime[i].state == if i in eager then Waiting else Stopped
    {
      this.plan, this.brokered, this.world, this.clock := plan, brokered, world, clock;
      tick, startSequence, exitCode := 0, 0, 0;
      shuttingDown, done, stopOrder, stoppingIndex := false, false, [], None;
      runtime := seq(|plan|, i => Runtime(if i in eager then Waiting else Stopped, -1, 0, 0, 0, None, false, false));
      busy := seq(|plan|, i => Busy(0, None, None));
      pending, nextForwardedId, sessions, nextSession, outbox := [], 1, map[], 1, [];
      accepted, closed, starts, seen, delays, stopLog := map[], {}, [], [], seq(|plan|, i => []), [];
      handled := [];
    }

    /** Can the event occur? Its component exists, a message comes from a connected session, and
        answers come from components. */
    predicate Possible(e: Event)
      reads this
    {
      match e
      case ChildExited(i, _, pid, _) => i < |plan| && pid > 0
      case BecameReady(i, _) => i < |plan|
      case FailedToBecomeReady(i, _) => i < |plan|
      case RestartDue(i) => i < |plan|
      case IdleTooLong(i) => i < |plan|
      case Called(session, _, target, _) => session in sessions && ResolvedIn(target, |plan|)
      case Answered(session, _, _) => session in sessions && sessions[session].ComponentPeer?
      case StartAsked(i) => i < |plan|
      case StopAsked(i) => i < |plan|
      case Used(i) => i < |plan|
      case _ => true
    }

    /** What an event does to the components. */
    twostate predicate Moves(e: Event)
      requires |old(runtime)| == |plan| == |old(busy)| && |runtime| == |plan| == |busy| && old(Possible(e))
      reads this
    {
      match e
      case Boot =>
        !shuttingDown ==> NoneEligible(plan, runtime) && Progressed(old(runtime), old(starts), runtime, starts)
      case ChildExited(i, generation, pid, failed) =>
        var r := old(runtime)[i];
        if r.generation != generation || r.pid != pid then runtime == old(runtime)
        else runtime[i].pid <= 0 &&
             (!shuttingDown ==> runtime == old(runtime)[i := Exited(plan[i], r, r.readinessFailed || failed)])
      case BecameReady(i, generation) =>
        var r := old(runtime)[i];
        if r.generation != generation || r.state != Starting then runtime == old(runtime)
        else !shuttingDown ==> Progressed(old(runtime)[i := r.(state := Ready)], old(starts), runtime, starts)
      case FailedToBecomeReady(i, generation) =>
        var r := old(runtime)[i];
        if r.generation != generation || r.state != Starting then runtime == old(runtime)
        else r.pid > 0 ==> runtime == old(runtime)[i := r.(state := Stopping, readinessFailed := true)]
      case RestartDue(i) =>
        var r := old(runtime)[i];
        if r.restartTimer.None? then runtime == old(runtime)
        else !shuttingDown ==>
          Progressed(old(runtime)[i := r.(restartTimer := None, state := Waiting)], old(starts), runtime, starts)
      case IdleTooLong(i) =>
        && busy[i].idleTimer == None
        && if old(busy)[i].idleTimer.Some? && old(runtime)[i].state == Ready then runtime[i].state == Stopping
           else runtime == old(runtime)
      case StartAsked(i) =>
        var down := old(runtime)[i].state == Stopped || old(runtime)[i].state == RunState.Failed;
        !shuttingDown ==>
          Progressed(if down then Reset(old(runtime), i) else old(runtime), old(starts), runtime, starts)
      case StopAsked(i) =>
        && runtime == old(runtime)[i := runtime[i]] && runtime[i].manualStop && busy[i].idleTimer == None
        && runtime[i].state == if old(runtime)[i].pid > 0 then Stopping else Stopped
      case Used(i) =>
        runtime == old(runtime) &&
          busy[i].idleTimer == IdleAfter(plan[i], runtime[i], old(busy)[i].inflight)
      case Terminated(code) =>
        shuttingDown && (!old(shuttingDown) ==> exitCode == code) && Quieter(old(runtime), runtime)
      case _ => true
    }

    /** What an event does to sessions and calls. */
    twostate predicate Routes(e: Event)
      requires |old(runtime)| == |plan| && old(Possible(e))
      reads this
    {
      match e
      case Called(session, request, target, deadline) =>
        var provider, now, id := Resolve(target, old(runtime)), clock(old(tick)), old(nextForwardedId);
        if provider.Some? && Admissible(old(pending), id, deadline, now) then
          provider.value < |plan| &&
          Handed(id, session, request, provider.value, Due(deadline, now), world(old(tick) + 1), old(tick) + 2)
        else
          accepted == old(accepted) && pending == old(pending) &&
          outbox == old(outbox) + [Reply(session, request, None, RefusalOf(target, provider, deadline, now))]
      case Answered(session, id, code) =>
        forall k :: 0 <= k < |old(pending)| && old(pending)[k].forwardedId == id ==>
          var p := old(pending)[k];
          if p.delivered && old(sessions)[session] == ComponentPeer(p.provider, p.providerGeneration) then
            pending == Without(old(pending), k) &&
            outbox == old(outbox) + [Reply(p.callerSession, p.callerRequest, Some(id), code)]
          else pending == old(pending) && outbox == old(outbox)
      case CallDue(id) =>
        && !IsPending(pending, id)
        && forall k :: 0 <= k < |old(pending)| && old(pending)[k].forwardedId == id ==>
          pending == Without(old(pending), k) && outbox == old(outbox) + [ErrorTo(old(pending)[k], "CALL_TIMEOUT")]
      case Connected => sessions == old(sessions)[old(nextSession) := PublicPeer] && old(nextSession) !in old(sessions)
      case Disconnected(session, notify) =>
        if session !in old(sessions) then runtime == old(runtime) && pending == old(pending)
        else
          && session in closed
          && if !notify || old(sessions)[session].PublicPeer? then runtime == old(runtime)
             else
               var c := old(sessions)[session].component;
               c < |plan| &&
               var r := old(runtime)[c];
               if r.generation == old(sessions)[session].generation && r.pid > 0 && r.state != Stopping
               then runtime == old(runtime)[c := r.(state := Stopping, readinessFailed := true)]
               else runtime == old(runtime)
      case _ => true
    }

    /** Is it about calls and sessions? */
    predicate ForRouter(e: Event) {
      e.Called? || e.Answered? || e.CallDue? || e.Connected? || e.Disconnected?
    }

    /** Handles one event. */
    method Dispatch(e: Event)
      requires Valid() && Possible(e)
      modifies this
      ensures Valid() && Evolves()
      ensures |old(runtime)| == |plan| == |old(busy)| && |runtime| == |plan| == |busy|
      ensures if ForRouter(e) then Routes(e) else Moves(e)
      ensures handled == old(handled) + [e]
    {
      hide CallsInv, OrderlyStarts, SessionsInv, RecordsInv, StopInv;
      ghost var before := handled;
      RecordsSizes(plan, runtime, busy, pending, delays, starts, |plan|);
      if ForRouter(e) {
        Route(e);
      } else {
        Move(e);
      }
      RecordsSizes(plan, runtime, busy, pending, delays, starts, |plan|);
      handled := before + [e];
    }

    method Route(e: Event)
      requires Valid() && Possible(e) && ForRouter(e) && |runtime| == |plan|
      modifies this
      ensures Valid() && Evolves() && Routes(e)
    {
      hide CallsInv, OrderlyStarts, SessionsInv, RecordsInv, StopInv, NoNewCalls, WaitingIn, NoneEligible, Handed,
           RefusalOf;
      match e {
        case Called(session, request, target, deadline) => ghost var _ := RouteCall(session, request, target, deadline);
        case Answered(session, id, code) => ProviderReply(session, id, code);
        case CallDue(id) => CallTimeout(id);
        case Connected => OpenPublicSession();
        case Disconnected(session, notify) => CloseSession(session, notify);
        case _ =>
      }
    }

    method Move(e: Event)
      requires Valid() && Possible(e) && !ForRouter(e) && |runtime| == |plan| == |busy|
      modifies this
      ensures Valid() && Evolves() && |runtime| == |plan| == |busy| && Moves(e)
    {
      hide CallsInv, OrderlyStarts, SessionsInv, RecordsInv, StopInv, NoNewCalls, WaitingIn, Progressed, NoneEligible,
           Quieter, Reset, Exited;
      match e {
        case Boot => StartEligible();
        case ChildExited(i, generation, pid, failed) => OnChildExit(i, generation, pid, failed);
        case BecameReady(i, generation) => MarkReady(i, generation);
        case FailedToBecomeReady(i, generation) => ReadinessFailed(i, generation);
        case RestartDue(i) => RestartTimerFired(i);
        case IdleTooLong(i) => IdleTimerFired(i);
        case StartAsked(i) => BrokerStart(i);
        case StopAsked(i) => BrokerStop(i);
        case Used(i) => Activity(i);
        case Terminated(code) => BeginShutdown(code);
        case _ =>
      }
      RecordsSizes(plan, runtime, busy, pending, delays, starts, |plan|);
    }

    /** Runs until done, whatever happens and in whatever order; events that cannot occur are skipped, and `kept` says
        which are not. */
    method Run(events: seq<Event>) returns (ghost kept: seq<bool>)
      requires Valid()
      modifies this
      ensures Valid() && Evolves()
      ensures |kept| <= |events| && (|kept| < |events| ==> done) &&
        handled == old(handled) + Kept(events[..|kept|], kept)
      ensures AllSettled() && CountsExact() && Lifecycles() && StopsInOrder() && StartsOrderly()
    {
      hide CallsInv, OrderlyStarts, SessionsInv, RecordsInv, StopInv, Moves, Routes;
      var k := 0;
      kept := [];
      while k < |events| && !done
        invariant Valid() && Evolves() && |kept| == k <= |events|
        invariant handled == old(handled) + Kept(events[..k], kept)
      {
        KeptNext(events, k, kept);
        if Possible(events[k]) {
          Dispatch(events[k]);
          kept := kept + [true];
        } else {
          kept := kept + [false];
        }
        k := k + 1;
      }
      Promises();
    }

    // ---- What the invariant means for an observer ----

    /** Each call given a forwarded id is pending and unanswered, or was answered exactly once, to its
        own caller, or was dropped because its caller is gone; at most 256 are pending. A pending call is for the
        component and deadline it was accepted for. */
    ghost predicate AllSettled()
      reads this
    {
      && |pending| <= 256
      && (forall id :: id in accepted ==>
            if IsPending(pending, id) then Replies(outbox, id) == 0
            else Replies(outbox, id) == 1 || (Replies(outbox, id) == 0 && accepted[id].session in closed))
      && (forall r :: r in outbox && r.call.Some? ==> AnswersCaller(accepted, r))
      && (forall p :: p in pending ==>
            p.forwardedId in accepted && accepted[p.forwardedId].provider == p.provider &&
              accepted[p.forwardedId].deadlineMs == p.deadlineMs)
    }

    /** The busy count of a component is the number of calls delivered to it, all to its running
        generation. While it is ready an armed idle timer means there are none; while it is not, an armed idle timer
        was left behind when it exited with calls in flight. */
    ghost predicate CountsExact()
      reads this
    {
      && |runtime| == |busy| == |plan|
      && (forall i :: 0 <= i < |plan| ==> busy[i].inflight == Delivered(pending, i))
      && (forall k :: 0 <= k < |pending| && pending[k].delivered ==>
            pending[k].provider < |plan| && pending[k].providerGeneration == runtime[pending[k].provider].generation)
      && (forall i :: 0 <= i < |plan| && busy[i].idleTimer.Some? && runtime[i].state == Ready ==>
            plan[i].lifecycle == OnDemand && busy[i].inflight == 0)
      && (forall i :: 0 <= i < |plan| && busy[i].idleTimer.Some? && runtime[i].state != Ready ==>
           LeftBehind(plan[i], busy[i]))
    }

    /** A component has a process exactly when it is starting, ready or stopping; its generation counts its
        starts; and it was restarted at most as often as allowed, each time after the prescribed delay. */
    ghost predicate Lifecycles()
      reads this
    {
      && |runtime| == |plan| == |delays|
      && (forall i :: 0 <= i < |plan| ==> (runtime[i].pid > 0 <==> Live(runtime[i].state)))
      && (forall i :: 0 <= i < |plan| ==> runtime[i].generation == Starts(starts, i))
      && (forall i :: 0 <= i < |plan| ==> |delays[i]| <= plan[i].restartLimit)
      && (forall i, k :: 0 <= i < |plan| && 0 <= k < |delays[i]| ==>
            delays[i][k] == Min(plan[i].backoffMaxMs, plan[i].backoffInitialMs * Pow2(k)))
    }

    /** Whenever a component was started it was waiting, and none of those it is ordered after was waiting, starting, in
        backoff or stopping. */
    ghost predicate StartsOrderly()
      reads this
    {
      && |seen| == |starts|
      && forall k :: 0 <= k < |starts| ==>
        && starts[k] < |plan| == |seen[k]| && seen[k][starts[k]] == Waiting
        && forall d :: d in plan[starts[k]].after ==>
          exists j :: 0 <= j < |plan| && plan[j].id == d && seen[k][j] in {Ready, Stopped, RunState.Failed}
    }

    /** During shutdown components are signalled in strictly decreasing start order; until it is done the one
        being stopped has a process, and when it is done nobody has. */
    ghost predicate StopsInOrder()
      reads this
    {
      && (forall j, k :: 0 <= j < k < |stopLog| ==> stopLog[j] > stopLog[k])
      && (shuttingDown && !done ==>
            stoppingIndex.Some? && stoppingIndex.value < |runtime| && runtime[stoppingIndex.value].pid > 0)
      && (done ==> forall i :: 0 <= i < |runtime| ==> runtime[i].pid <= 0)
    }

    lemma Promises()
      requires Valid()
      ensures AllSettled() && CountsExact() && Lifecycles() && StopsInOrder() && StartsOrderly()
    {
      CallsSettled();
      IdleCounts();
      LivesKept();
      OrderKept();
    }

    lemma OrderKept()
      requires Valid()
      ensures StartsOrderly()
    {
      forall k | 0 <= k < |starts| ensures OrderlyStart(plan, starts[k], seen[k]) {}
    }

    lemma CallsSettled()
      requires Valid()
      ensures AllSettled()
    {
      forall id | id in accepted ensures SettledOnce(pending, outbox, closed, id, accepted[id].session) {}
    }

    lemma IdleCounts()
      requires Valid()
      ensures CountsExact()
    {
      forall i | 0 <= i < |plan| && busy[i].idleTimer.Some? && runtime[i].state == Ready
        ensures plan[i].lifecycle == OnDemand && busy[i].inflight == 0
      {
        IdleMeansIdle(plan, runtime, busy, pending, delays, starts, i);
      }
    }

    lemma LivesKept()
      requires Valid()
      ensures Lifecycles()
    {
      forall i | 0 <= i < |plan|
        ensures LifeAt(runtime[i], delays[i]) && StartedAs(runtime[i], starts, i)
        ensures RestartsOk(plan[i], runtime[i], delays[i])
      {}
      forall i, k | 0 <= i < |plan| && 0 <= k < |delays[i]|
        ensures delays[i][k] == Min(plan[i].backoffMaxMs, plan[i].backoffInitialMs * Pow2(k))
      {
        assert delays[i][k] == BackoffDelay(plan[i], k + 1);
      }
    }
  }

  /** The events that were not skipped. */
  ghost function Kept(events: seq<Event>, kept: seq<bool>): seq<Event>
    requires |kept| == |events|
  {
    if events == [] then []
    else
      var n := |events| - 1;
      Kept(events[..n], kept[..n]) + (if kept[n] then [events[n]] else [])
  }

  lemma KeptNext(events: seq<Event>, k: nat, kept: seq<bool>)
    requires k < |events| && |kept| == k
    ensures Kept(events[..k+1], kept + [true]) == Kept(events[..k], kept) + [events[k]]
    ensures Kept(events[..k+1], kept + [false]) == Kept(events[..k], kept)
  {
    assert events[..k+1][..k] == events[..k] && (kept + [true])[..k] == kept && (kept + [false])[..k] == kept;
  }

  /** The delay loop: doubling, capped at every step. */
  method RestartDelay(c: ComponentPlan, count: nat) returns (delay: nat)
    requires Supported(c) && count >= 1
    ensures delay == BackoffDelay(c, count) && delay <= MAX_U32
  {
    delay := c.backoffInitialMs;
    assert c.backoffInitialMs * Pow2(0) == c.backoffInitialMs;
    for step := 1 to count
      invariant delay == BackoffDelay(c, step) && delay * 2 <= MAX_U64
    {
      CappedDoubling(c.backoffMaxMs, c.backoffInitialMs, step - 1);
      delay := Min(c.backoffMaxMs, delay * 2);
    }
  }

  lemma CappedDoubling(cap: nat, initial: nat, k: nat)
    ensures Min(cap, 2 * Min(cap, initial * Pow2(k))) == Min(cap, initial * Pow2(k + 1))
  {
    assert initial * Pow2(k + 1) == 2 * (initial * Pow2(k));
  }
}
