/** The records of the native router and supervisor, and what must hold of them
    between two reactor callbacks. Everything here is about values; the class that
    changes them is in the module NativeSupervisor. */
module NativeState {
  import opened RuntimePlanModel

  // ---- Records ----

  datatype RunState = Waiting | Starting | Ready | Backoff | Stopping | Stopped | Failed

  predicate Live(s: RunState) {
    s.Starting? || s.Ready? || s.Stopping?
  }

  /** An armed restart timer: the generation it was armed for, and its delay. */
  datatype RestartTimer = RestartTimer(generation: nat, delayMs: nat)

  datatype Runtime = Runtime(
    state: RunState, pid: int, generation: nat, startSequence: nat, restartCount: nat,
    restartTimer: Option<RestartTimer>, readinessFailed: bool, manualStop: bool)

  /** A component's delivered calls, and the generation its idle timer is armed for. */
  datatype Busy = Busy(inflight: nat, idleTimer: Option<nat>, left: Option<Leaving>)

  /** History: a component whose process exited, with its calls in flight, while its idle timer was armed again. */
  datatype Leaving = Leaving(exited: Runtime, inflight: nat)

  datatype PendingCall = PendingCall(
    forwardedId: nat, callerSession: nat, callerRequest: nat, provider: nat,
    providerGeneration: nat, deadlineMs: nat, delivered: bool)

  /** History: a call that was given a forwarded id: who made it, which component it is for, and until when. */
  datatype Acceptance = Acceptance(session: nat, request: nat, provider: nat, deadlineMs: nat)

  datatype Peer = PublicPeer | ComponentPeer(component: nat, generation: nat)

  /** A reply sent to a session. `call` is the forwarded id it settles, if any. */
  datatype Reply = Reply(session: nat, request: nat, call: Option<nat>, code: string)

  const MAX_PENDING_CALLS := 256
  const MAX_CALL_TIMEOUT_MS := 300000
  const MAX_U32: nat := 0xffff_ffff
  const MAX_U64: nat := 0xffff_ffff_ffff_ffff

  function Without<T>(s: seq<T>, k: nat): (r: seq<T>)
    requires k < |s|
    ensures |r| == |s| - 1
    ensures forall x :: x in r ==> x in s
  {
    s[..k] + s[k+1..]
  }

  // ---- Calls: each accepted call is settled exactly once ----

  ghost function Replies(outbox: seq<Reply>, id: nat): nat {
    if outbox == [] then 0
    else Replies(outbox[..|outbox|-1], id) + (if outbox[|outbox|-1].call == Some(id) then 1 else 0)
  }

  ghost predicate IsPending(pending: seq<PendingCall>, id: nat) {
    exists k :: 0 <= k < |pending| && pending[k].forwardedId == id
  }

  /** A pending call has no reply; one that is gone has exactly one, or none if its caller's session is closed. */
  ghost predicate SettledOnce(pending: seq<PendingCall>, outbox: seq<Reply>, closed: set<nat>, id: nat, session: nat) {
    if IsPending(pending, id) then Replies(outbox, id) == 0
    else Replies(outbox, id) == 1 || (Replies(outbox, id) == 0 && session in closed)
  }

  function AcceptanceOf(p: PendingCall): Acceptance {
    Acceptance(p.callerSession, p.callerRequest, p.provider, p.deadlineMs)
  }

  /** A pending call is still the one that was accepted: its caller, its provider and its deadline are the same. */
  ghost predicate AcceptedAs(accepted: map<nat, Acceptance>, p: PendingCall) {
    p.forwardedId in accepted && accepted[p.forwardedId] == AcceptanceOf(p)
  }

  /** The reply goes to the session and request that made the call. */
  ghost predicate AnswersCaller(accepted: map<nat, Acceptance>, r: Reply)
    requires r.call.Some?
  {
    r.call.value in accepted && accepted[r.call.value].session == r.session &&
      accepted[r.call.value].request == r.request
  }

  ghost predicate CallsInv(accepted: map<nat, Acceptance>, pending: seq<PendingCall>, outbox: seq<Reply>,
                           closed: set<nat>, nextId: nat) {
    && |pending| <= MAX_PENDING_CALLS && 1 <= nextId <= MAX_U64
    && (forall id :: id in accepted ==> 1 <= id < nextId)
    && (forall k :: 0 <= k < |pending| ==> AcceptedAs(accepted, pending[k]))
    && (forall j, k :: 0 <= j < k < |pending| ==> pending[j].forwardedId != pending[k].forwardedId)
    && (forall r :: r in outbox && r.call.Some? ==> AnswersCaller(accepted, r))
    && (forall id :: id in accepted ==> SettledOnce(pending, outbox, closed, id, accepted[id].session))
  }

  lemma RepliesAppend(outbox: seq<Reply>, r: Reply, id: nat)
    ensures Replies(outbox + [r], id) == Replies(outbox, id) + (if r.call == Some(id) then 1 else 0)
  {
    assert (outbox + [r])[..|outbox|] == outbox;
  }

  lemma StillPending(pending: seq<PendingCall>, k: nat, id: nat)
    requires k < |pending| && id != pending[k].forwardedId && IsPending(pending, id)
    ensures IsPending(Without(pending, k), id)
  {
    var i :| 0 <= i < |pending| && pending[i].forwardedId == id;
    assert Without(pending, k)[if i < k then i else i - 1].forwardedId == id;
  }

  lemma WasPending(pending: seq<PendingCall>, k: nat, id: nat)
    requires k < |pending| && IsPending(Without(pending, k), id)
    requires forall i, j :: 0 <= i < j < |pending| ==> pending[i].forwardedId != pending[j].forwardedId
    ensures IsPending(pending, id) && id != pending[k].forwardedId
  {
    var rest := Without(pending, k);
    var i :| 0 <= i < |rest| && rest[i].forwardedId == id;
    var j := if i < k then i else i + 1;
    assert pending[j] == rest[i];
  }

  lemma PendingWithout(pending: seq<PendingCall>, k: nat, id: nat)
    requires k < |pending|
    requires forall i, j :: 0 <= i < j < |pending| ==> pending[i].forwardedId != pending[j].forwardedId
    ensures IsPending(Without(pending, k), id) <==> IsPending(pending, id) && id != pending[k].forwardedId
  {
    hide IsPending, Without;
    if IsPending(pending, id) && id != pending[k].forwardedId { StillPending(pending, k, id); }
    if IsPending(Without(pending, k), id) { WasPending(pending, k, id); }
  }

  lemma RemainingCalls(accepted: map<nat, Acceptance>, pending: seq<PendingCall>, outbox: seq<Reply>,
                       closed: set<nat>, nextId: nat, k: nat)
    requires CallsInv(accepted, pending, outbox, closed, nextId) && k < |pending|
    ensures var rest := Without(pending, k);
      && (forall i :: 0 <= i < |rest| ==> AcceptedAs(accepted, rest[i]))
      && (forall i, j :: 0 <= i < j < |rest| ==> rest[i].forwardedId != rest[j].forwardedId)
  {
    var rest := Without(pending, k);
    assert forall i :: 0 <= i < |rest| ==> rest[i] == pending[if i < k then i else i + 1];
  }

  /** Removing a call and replying to its caller settles it. */
  lemma AnswerStep(accepted: map<nat, Acceptance>, pending: seq<PendingCall>, outbox: seq<Reply>,
                   closed: set<nat>, nextId: nat, k: nat, code: string)
    requires CallsInv(accepted, pending, outbox, closed, nextId) && k < |pending|
    ensures var p := pending[k];
      CallsInv(accepted, Without(pending, k),
               outbox + [Reply(p.callerSession, p.callerRequest, Some(p.forwardedId), code)], closed, nextId)
  {
    var p, rest := pending[k], Without(pending, k);
    var r := Reply(p.callerSession, p.callerRequest, Some(p.forwardedId), code);
    RemainingCalls(accepted, pending, outbox, closed, nextId, k);
    forall id | id in accepted ensures SettledOnce(rest, outbox + [r], closed, id, accepted[id].session) {
      PendingWithout(pending, k, id);
      RepliesAppend(outbox, r, id);
    }
  }

  /** Removing a call whose caller is gone settles it without a reply. */
  lemma AbandonStep(accepted: map<nat, Acceptance>, pending: seq<PendingCall>, outbox: seq<Reply>,
                    closed: set<nat>, nextId: nat, k: nat)
    requires CallsInv(accepted, pending, outbox, closed, nextId) && k < |pending|
    requires pending[k].callerSession in closed
    ensures CallsInv(accepted, Without(pending, k), outbox, closed, nextId)
  {
    var rest := Without(pending, k);
    RemainingCalls(accepted, pending, outbox, closed, nextId, k);
    forall id | id in accepted ensures SettledOnce(rest, outbox, closed, id, accepted[id].session) {
      PendingWithout(pending, k, id);
      if id == pending[k].forwardedId { assert IsPending(pending, id); }
    }
  }

  /** A reply that settles no forwarded call. */
  lemma OtherReply(accepted: map<nat, Acceptance>, pending: seq<PendingCall>, outbox: seq<Reply>,
                   closed: set<nat>, nextId: nat, r: Reply)
    requires CallsInv(accepted, pending, outbox, closed, nextId) && r.call.None?
    ensures CallsInv(accepted, pending, outbox + [r], closed, nextId)
  {
    forall id | id in accepted ensures SettledOnce(pending, outbox + [r], closed, id, accepted[id].session) {
      RepliesAppend(outbox, r, id);
    }
  }

  lemma {:induction false} NoReplies(outbox: seq<Reply>, id: nat)
    requires forall r :: r in outbox ==> r.call != Some(id)
    ensures Replies(outbox, id) == 0
  {
    if outbox != [] {
      NoReplies(outbox[..|outbox|-1], id);
      assert outbox[|outbox|-1] in outbox;
    }
  }

  lemma PendingAppend(pending: seq<PendingCall>, p: PendingCall, id: nat)
    ensures IsPending(pending + [p], id) <==> IsPending(pending, id) || p.forwardedId == id
  {
    var longer := pending + [p];
    assert longer[|pending|] == p;
    if IsPending(pending, id) {
      var k :| 0 <= k < |pending| && pending[k].forwardedId == id;
      assert longer[k].forwardedId == id;
    }
  }

  /** Accepting a call under the next forwarded id. */
  lemma AcceptStep(accepted: map<nat, Acceptance>, pending: seq<PendingCall>, outbox: seq<Reply>,
                   closed: set<nat>, nextId: nat, p: PendingCall)
    requires CallsInv(accepted, pending, outbox, closed, nextId)
    requires |pending| < MAX_PENDING_CALLS && nextId < MAX_U64 && p.forwardedId == nextId
    ensures CallsInv(accepted[nextId := AcceptanceOf(p)], pending + [p], outbox, closed, nextId + 1)
  {
    var more := accepted[nextId := AcceptanceOf(p)];
    forall id | id in more ensures SettledOnce(pending + [p], outbox, closed, id, more[id].session) {
      if id == nextId {
        assert (pending + [p])[|pending|].forwardedId == id;
        NoReplies(outbox, id);
      } else {
        PendingAppend(pending, p, id);
      }
    }
  }

  /** Recording that a call was delivered changes nothing for its caller. */
  lemma DeliverKeepsCalls(accepted: map<nat, Acceptance>, pending: seq<PendingCall>, outbox: seq<Reply>,
                          closed: set<nat>, nextId: nat, k: nat, generation: nat)
    requires CallsInv(accepted, pending, outbox, closed, nextId) && k < |pending|
    ensures CallsInv(accepted, pending[k := pending[k].(delivered := true, providerGeneration := generation)], outbox,
                     closed, nextId)
  {
    var after := pending[k := pending[k].(delivered := true, providerGeneration := generation)];
    assert forall i :: 0 <= i < |pending| ==> after[i].forwardedId == pending[i].forwardedId;
    forall id | id in accepted ensures SettledOnce(after, outbox, closed, id, accepted[id].session) {
      if IsPending(pending, id) {
        var i :| 0 <= i < |pending| && pending[i].forwardedId == id;
        assert after[i].forwardedId == id;
      }
      if IsPending(after, id) {
        var i :| 0 <= i < |after| && after[i].forwardedId == id;
        assert pending[i].forwardedId == id;
      }
    }
  }

  /** Closing more sessions keeps every call settled. */
  lemma ClosingKeepsCalls(accepted: map<nat, Acceptance>, pending: seq<PendingCall>, outbox: seq<Reply>,
                          closed: set<nat>, nextId: nat, s: nat)
    requires CallsInv(accepted, pending, outbox, closed, nextId)
    ensures CallsInv(accepted, pending, outbox, closed + {s}, nextId)
  {
    forall id | id in accepted ensures SettledOnce(pending, outbox, closed + {s}, id, accepted[id].session) {
      assert SettledOnce(pending, outbox, closed, id, accepted[id].session);
    }
  }

  // ---- Sessions ----

  /** Every waiting caller is still connected, `leaving` excepted. */
  ghost predicate SessionsInv(n: nat, sessions: map<nat, Peer>, closed: set<nat>, nextSession: nat,
                              pending: seq<PendingCall>, leaving: Option<nat>) {
    && sessions.Keys !! closed
    && (forall s :: s in sessions || s in closed ==> s < nextSession)
    && (forall s :: s in sessions && sessions[s].ComponentPeer? ==>
         sessions[s].component < n && sessions[s].generation > 0)
    && (forall k :: 0 <= k < |pending| ==>
         pending[k].callerSession in sessions || leaving == Some(pending[k].callerSession))
  }

  // ---- Busy counts ----

  ghost function Delivered(pending: seq<PendingCall>, i: nat): nat {
    if pending == [] then 0
    else
      var last := pending[|pending|-1];
      Delivered(pending[..|pending|-1], i) + (if last.delivered && last.provider == i then 1 else 0)
  }

  lemma {:induction false} DeliveredConcat(a: seq<PendingCall>, b: seq<PendingCall>, i: nat)
    ensures Delivered(a + b, i) == Delivered(a, i) + Delivered(b, i)
  {
    if b == [] {
      assert a + b == a;
    } else {
      var n := |b| - 1;
      assert (a + b)[..|a| + n] == a + b[..n];
      DeliveredConcat(a, b[..n], i);
    }
  }

  lemma DeliveredSplit(pending: seq<PendingCall>, k: nat, i: nat)
    requires k < |pending|
    ensures Delivered(pending, i)
         == Delivered(pending[..k], i) + (if pending[k].delivered && pending[k].provider == i then 1 else 0) +
           Delivered(pending[k+1..], i)
    ensures Delivered(Without(pending, k), i) == Delivered(pending[..k], i) + Delivered(pending[k+1..], i)
  {
    assert pending == pending[..k] + [pending[k]] + pending[k+1..];
    DeliveredConcat(pending[..k] + [pending[k]], pending[k+1..], i);
    DeliveredConcat(pending[..k], [pending[k]], i);
    assert [pending[k]][..0] == [];
    assert Delivered([pending[k]], i) == if pending[k].delivered && pending[k].provider == i then 1 else 0;
    DeliveredConcat(pending[..k], pending[k+1..], i);
  }

  lemma DeliveredUpdate(pending: seq<PendingCall>, k: nat, p: PendingCall, i: nat)
    requires k < |pending| && !pending[k].delivered && p.delivered && p.provider == pending[k].provider
    ensures Delivered(pending[k := p], i) == Delivered(pending, i) + (if p.provider == i then 1 else 0)
  {
    var after := pending[k := p];
    DeliveredSplit(pending, k, i);
    DeliveredSplit(after, k, i);
    assert after[..k] == pending[..k] && after[k+1..] == pending[k+1..];
  }

  lemma {:induction false} DeliveredNone(pending: seq<PendingCall>, i: nat)
    requires forall p :: p in pending && p.delivered ==> p.provider != i
    ensures Delivered(pending, i) == 0
  {
    if pending != [] {
      DeliveredNone(pending[..|pending|-1], i);
      assert pending[|pending|-1] in pending;
    }
  }

  lemma {:induction false} DeliveredBound(pending: seq<PendingCall>, i: nat)
    ensures Delivered(pending, i) <= |pending|
  {
    if pending != [] {
      DeliveredBound(pending[..|pending|-1], i);
    }
  }

  /** What arming the idle timer does: armed only for an idle, ready, on-demand component. */
  function IdleAfter(c: ComponentPlan, r: Runtime, inflight: nat): Option<nat> {
    if c.lifecycle != OnDemand || c.idleTimeoutMs == 0 || r.state != Ready || inflight != 0 then None
    else Some(r.generation)
  }

  ghost predicate IdleOk(c: ComponentPlan, r: Runtime, b: Busy) {
    b.idleTimer.Some? ==>
      && c.lifecycle == OnDemand && c.idleTimeoutMs > 0
      && b.idleTimer.value <= r.generation
      && (b.idleTimer.value == r.generation ==> b.inflight == 0)
      && (r.state != Ready ==> LeftBehind(c, b))
  }

  predicate ReadyAndIdleable(c: ComponentPlan, r: Runtime) {
    r.state == Ready && c.lifecycle == OnDemand && c.idleTimeoutMs > 0
  }

  /** The timer was left armed by the exit of a ready component with calls in flight, of the generation it is for. */
  ghost predicate LeftBehind(c: ComponentPlan, b: Busy) {
    && b.left.Some? && b.idleTimer == Some(b.left.value.exited.generation)
    && ReadyAndIdleable(c, b.left.value.exited) && b.left.value.inflight > 0
  }

  /** May the component cease to be ready? */
  ghost predicate Leavable(c: ComponentPlan, r: Runtime, b: Busy) {
    r.state != Ready || b.idleTimer == None || LeftBehind(c, b)
  }

  /** Counts are exact, and a delivered call belongs to the running generation of its provider. */
  ghost predicate BusyInv(plan: seq<ComponentPlan>, runtime: seq<Runtime>, busy: seq<Busy>, pending: seq<PendingCall>) {
    && |plan| == |runtime| == |busy|
    && (forall k :: 0 <= k < |pending| ==> pending[k].provider < |plan|)
    && (forall i :: 0 <= i < |busy| ==> busy[i].inflight == Delivered(pending, i))
    && (forall k :: 0 <= k < |pending| && pending[k].delivered ==>
          DeliveredTo(pending[k], runtime[pending[k].provider]))
    && (forall k :: 0 <= k < |pending| && !pending[k].delivered ==> pending[k].providerGeneration == 0)
    && (forall i :: 0 <= i < |busy| ==> IdleOk(plan[i], runtime[i], busy[i]))
  }

  ghost predicate DeliveredTo(p: PendingCall, r: Runtime) {
    (r.state == Ready || r.state == Stopping) && p.providerGeneration == r.generation
  }

  /** The count fell and the idle timer was reconsidered, or nothing happened. */
  ghost predicate Settles(c: ComponentPlan, r: Runtime, before: Busy, after: Busy) {
    || after == before
    || (after.inflight < before.inflight &&
        after == before.(inflight := after.inflight, idleTimer := IdleAfter(c, r, after.inflight)))
  }

  ghost predicate AllSettle(plan: seq<ComponentPlan>, runtime: seq<Runtime>, before: seq<Busy>, after: seq<Busy>) {
    && |plan| == |runtime| == |before| == |after|
    && (forall i :: 0 <= i < |plan| ==> Settles(plan[i], runtime[i], before[i], after[i]))
  }

  lemma SettlesTransitive(plan: seq<ComponentPlan>, runtime: seq<Runtime>, a: seq<Busy>, b: seq<Busy>, c: seq<Busy>)
    requires AllSettle(plan, runtime, a, b) && AllSettle(plan, runtime, b, c)
    ensures AllSettle(plan, runtime, a, c)
  {
  }

  lemma SettlesReflexive(plan: seq<ComponentPlan>, runtime: seq<Runtime>, a: seq<Busy>)
    requires |plan| == |runtime| == |a|
    ensures AllSettle(plan, runtime, a, a)
  {
  }

  /** Removing a call, and releasing its provider if it had been delivered. */
  lemma EraseStep(plan: seq<ComponentPlan>, runtime: seq<Runtime>, busy: seq<Busy>, pending: seq<PendingCall>, k: nat)
    requires BusyInv(plan, runtime, busy, pending) && k < |pending|
    ensures pending[k].provider < |busy|
    ensures pending[k].delivered ==> busy[pending[k].provider].inflight > 0
    ensures var p := pending[k]; var b := busy[p.provider]; var n := if b.inflight > 0 then b.inflight - 1 else 0;
      var after := if p.delivered
        then busy[p.provider := b.(inflight := n, idleTimer := IdleAfter(plan[p.provider], runtime[p.provider], n))]
          else busy;
      && BusyInv(plan, runtime, after, Without(pending, k))
      && AllSettle(plan, runtime, busy, after)
  {
    var p, rest := pending[k], Without(pending, k);
    assert forall i :: 0 <= i < |rest| ==> rest[i] == pending[if i < k then i else i + 1];
    DeliveredSplit(pending, k, p.provider);
    var b := busy[p.provider];
    var n := if b.inflight > 0 then b.inflight - 1 else 0;
    var after := if p.delivered
      then busy[p.provider := b.(inflight := n, idleTimer := IdleAfter(plan[p.provider], runtime[p.provider], n))]
        else busy;
    forall i | 0 <= i < |busy| ensures after[i].inflight == Delivered(rest, i) {
      DeliveredSplit(pending, k, i);
    }
  }

  /** Delivering a call to the running generation of a ready provider. */
  lemma DeliverStep(plan: seq<ComponentPlan>, runtime: seq<Runtime>, busy: seq<Busy>, pending: seq<PendingCall>, k: nat)
    requires BusyInv(plan, runtime, busy, pending) && k < |pending| && !pending[k].delivered
    requires runtime[pending[k].provider].state == Ready
    ensures var p := pending[k]; var g := runtime[p.provider].generation;
      BusyInv(plan, runtime, busy[p.provider := busy[p.provider].(inflight := busy[p.provider].inflight + 1,
                                                                  idleTimer := None)],
              pending[k := p.(delivered := true, providerGeneration := g)])
    ensures busy[pending[k].provider].inflight < |pending|
  {
    var p := pending[k];
    var q := p.(delivered := true, providerGeneration := runtime[p.provider].generation);
    var after := busy[p.provider := busy[p.provider].(inflight := busy[p.provider].inflight + 1, idleTimer := None)];
    forall i | 0 <= i < |busy| ensures after[i].inflight == Delivered(pending[k := q], i) {
      DeliveredUpdate(pending, k, q, i);
    }
    DeliveredBound(pending[k := q], p.provider);
  }

  /** Changing a component that holds no delivered call keeps the counts exact. */
  lemma RuntimeStep(plan: seq<ComponentPlan>, runtime: seq<Runtime>, busy: seq<Busy>, pending: seq<PendingCall>,
                    i: nat, r: Runtime)
    requires BusyInv(plan, runtime, busy, pending) && i < |runtime|
    requires r.generation == runtime[i].generation
          || (r.generation > runtime[i].generation && forall k :: 0 <= k < |pending| && pending[k].delivered ==>
            pending[k].provider != i)
    requires r.state == Ready || r.state == Stopping
          || forall k :: 0 <= k < |pending| && pending[k].delivered ==> pending[k].provider != i
    requires r.state == Ready || Leavable(plan[i], runtime[i], busy[i])
    ensures BusyInv(plan, runtime[i := r], busy, pending)
  {
  }

  /** Adding an undelivered call. */
  lemma QueueStep(plan: seq<ComponentPlan>, runtime: seq<Runtime>, busy: seq<Busy>, pending: seq<PendingCall>,
                  p: PendingCall)
    requires BusyInv(plan, runtime, busy, pending) && p.provider < |plan| && !p.delivered && p.providerGeneration == 0
    ensures BusyInv(plan, runtime, busy, pending + [p])
  {
    forall i | 0 <= i < |busy| ensures busy[i].inflight == Delivered(pending + [p], i) {
      assert (pending + [p])[..|pending|] == pending;
    }
  }

  /** Disarming or rearming an idle timer. */
  lemma IdleStep(plan: seq<ComponentPlan>, runtime: seq<Runtime>, busy: seq<Busy>, pending: seq<PendingCall>, i: nat,
                 timer: Option<nat>)
    requires BusyInv(plan, runtime, busy, pending) && i < |busy|
    requires timer == None || timer == IdleAfter(plan[i], runtime[i], busy[i].inflight)
    ensures BusyInv(plan, runtime, busy[i := busy[i].(idleTimer := timer)], pending)
  {
  }

  // ---- Nobody waits behind a provider that is ready or has failed ----

  /** No call is still undelivered behind a ready or failed provider, `except` excepted. */
  ghost predicate Unstranded(runtime: seq<Runtime>, pending: seq<PendingCall>, except: nat) {
    forall k :: 0 <= k < |pending| && !pending[k].delivered && pending[k].provider < |runtime| &&
      pending[k].provider != except
      ==> runtime[pending[k].provider].state != Ready && runtime[pending[k].provider].state != Failed
  }

  /** A ready component's idle timer, if armed, is armed for the running generation. */
  ghost predicate FreshIdle(runtime: seq<Runtime>, busy: seq<Busy>, except: nat) {
    && |runtime| == |busy|
    && forall i :: 0 <= i < |busy| && i != except && runtime[i].state == Ready && busy[i].idleTimer.Some?
         ==> busy[i].idleTimer.value == runtime[i].generation
  }

  /** `b` has lost some calls of `a` and gained none. */
  ghost predicate Fewer(a: seq<PendingCall>, b: seq<PendingCall>) {
    && |b| <= |a| && (|b| == |a| ==> b == a)
    && (forall p :: p in b ==> p in a)
  }

  /** No call was added, and if none is gone they are the same calls in the same places. */
  ghost predicate NoNewCalls(a: seq<PendingCall>, b: seq<PendingCall>) {
    && |b| <= |a|
    && (|b| == |a| ==> forall k :: 0 <= k < |b| ==> b[k].forwardedId == a[k].forwardedId)
  }

  lemma FewerKeeps(runtime: seq<Runtime>, a: seq<PendingCall>, b: seq<PendingCall>, except: nat)
    requires Unstranded(runtime, a, except) && Fewer(a, b)
    ensures Unstranded(runtime, b, except) && NoNewCalls(a, b)
  {
    forall k | 0 <= k < |b| ensures b[k] in a { assert b[k] in b; }
  }

  lemma SettlingKeepsFresh(plan: seq<ComponentPlan>, runtime: seq<Runtime>, a: seq<Busy>, b: seq<Busy>, except: nat)
    requires FreshIdle(runtime, a, except) && AllSettle(plan, runtime, a, b)
    ensures FreshIdle(runtime, b, except)
  {
  }

  // ---- Lifecycle ----

  function Pow2(k: nat): (r: nat)
    ensures r >= 1
  {
    if k == 0 then 1 else 2 * Pow2(k - 1)
  }

  function Min(a: nat, b: nat): nat {
    if a < b then a else b
  }

  /** The delay before the k-th restart. */
  function BackoffDelay(c: ComponentPlan, k: nat): nat
    requires k >= 1
  {
    Min(c.backoffMaxMs, c.backoffInitialMs * Pow2(k - 1))
  }

  /** The ranges the plan parser guarantees. */
  predicate Supported(c: ComponentPlan) {
    && 1 <= c.backoffInitialMs <= 60000 && c.backoffInitialMs <= c.backoffMaxMs <= 300000
    && c.restartLimit <= 1000
  }

  /** Restarts since the last activation: within the limit, each after the prescribed delay. */
  ghost predicate RestartsOk(c: ComponentPlan, r: Runtime, delays: seq<nat>) {
    && r.restartCount == |delays| <= c.restartLimit
    && (forall k :: 0 <= k < |delays| ==> delays[k] == BackoffDelay(c, k + 1))
  }

  ghost predicate LifeAt(r: Runtime, delays: seq<nat>) {
    && (Live(r.state) <==> r.pid > 0)
    && (Live(r.state) ==> r.generation >= 1)
    && (r.restartTimer.Some? <==> r.state == Backoff)
    && (r.restartTimer.Some? ==> delays != [] && r.restartTimer.value == RestartTimer(r.generation, delays[|delays|-1]))
  }

  ghost function Starts(starts: seq<nat>, i: nat): nat {
    if starts == [] then 0
    else Starts(starts[..|starts|-1], i) + (if starts[|starts|-1] == i then 1 else 0)
  }

  /** A component's generation counts its starts, and its start sequence is the position of one of them. */
  ghost predicate StartedAs(r: Runtime, starts: seq<nat>, i: nat) {
    && r.generation == Starts(starts, i)
    && (r.generation > 0 ==> 1 <= r.startSequence <= |starts| && starts[r.startSequence - 1] == i)
  }

  ghost predicate LifeInv(plan: seq<ComponentPlan>, runtime: seq<Runtime>, delays: seq<seq<nat>>, starts: seq<nat>,
                          except: nat) {
    && |plan| == |runtime| == |delays|
    && (forall i :: 0 <= i < |plan| && i != except ==> LifeAt(runtime[i], delays[i]))
    && (forall i :: 0 <= i < |plan| ==> RestartsOk(plan[i], runtime[i], delays[i]))
    && (forall i :: 0 <= i < |plan| ==> StartedAs(runtime[i], starts, i))
  }

  lemma StartsAppend(starts: seq<nat>, x: nat, i: nat)
    ensures Starts(starts + [x], i) == Starts(starts, i) + (if x == i then 1 else 0)
  {
    assert (starts + [x])[..|starts|] == starts;
  }

  /** Recording a start of component `i`. */
  lemma StartStep(plan: seq<ComponentPlan>, runtime: seq<Runtime>, delays: seq<seq<nat>>, starts: seq<nat>, i: nat,
                  r: Runtime)
    requires LifeInv(plan, runtime, delays, starts, |plan|) && i < |plan|
    requires r.generation == runtime[i].generation + 1 && r.startSequence == |starts| + 1
    requires r.restartCount == runtime[i].restartCount
    ensures LifeInv(plan, runtime[i := r], delays, starts + [i], i)
  {
    var after := runtime[i := r];
    forall j | 0 <= j < |plan| ensures StartedAs(after[j], starts + [i], j) {
      StartsAppend(starts, i, j);
      assert StartedAs(runtime[j], starts, j);
    }
  }

  ghost predicate NoCallsTo(pending: seq<PendingCall>, i: nat) {
    forall k :: 0 <= k < |pending| ==> pending[k].provider != i
  }

  ghost predicate NoDeliveredTo(pending: seq<PendingCall>, i: nat) {
    forall k :: 0 <= k < |pending| && pending[k].delivered ==> pending[k].provider != i
  }

  ghost predicate NoWaitingFor(pending: seq<PendingCall>, i: nat) {
    forall k :: 0 <= k < |pending| && !pending[k].delivered ==> pending[k].provider != i
  }

  /** The part of the invariant that speaks about component records, `except` being in transition. */
  ghost predicate RecordsInv(plan: seq<ComponentPlan>, runtime: seq<Runtime>, busy: seq<Busy>,
                             pending: seq<PendingCall>,
                             delays: seq<seq<nat>>, starts: seq<nat>, except: nat) {
    && BusyInv(plan, runtime, busy, pending)
    && LifeInv(plan, runtime, delays, starts, except)
    && Unstranded(runtime, pending, except)
    && FreshIdle(runtime, busy, except)
  }

  /** Replacing the record of one component, which ends its transition. */
  lemma Replace(plan: seq<ComponentPlan>, runtime: seq<Runtime>, busy: seq<Busy>, pending: seq<PendingCall>,
                delays: seq<seq<nat>>, starts: seq<nat>, i: nat, r: Runtime, d: seq<nat>)
    requires RecordsInv(plan, runtime, busy, pending, delays, starts, i) && i < |plan|
    requires r.generation == runtime[i].generation && r.startSequence == runtime[i].startSequence
    requires RestartsOk(plan[i], r, d) && LifeAt(r, d)
    requires r.state == Ready || r.state == Stopping || NoDeliveredTo(pending, i)
    requires r.state == Ready || r.state == Failed ==> NoWaitingFor(pending, i)
    requires r.state == Ready ==> busy[i].idleTimer == None || busy[i].idleTimer == Some(r.generation)
    requires r.state == Ready || Leavable(plan[i], runtime[i], busy[i])
    ensures RecordsInv(plan, runtime[i := r], busy, pending, delays[i := d], starts, |plan|)
  {
    RuntimeStep(plan, runtime, busy, pending, i, r);
    assert StartedAs(runtime[i], starts, i);
  }

  /** Any component may be considered in transition. */
  lemma InTransition(plan: seq<ComponentPlan>, runtime: seq<Runtime>, busy: seq<Busy>, pending: seq<PendingCall>,
                     delays: seq<seq<nat>>, starts: seq<nat>, i: nat)
    requires RecordsInv(plan, runtime, busy, pending, delays, starts, |plan|)
    ensures RecordsInv(plan, runtime, busy, pending, delays, starts, i)
    ensures i < |plan| ==> RestartsOk(plan[i], runtime[i], delays[i]) && LifeAt(runtime[i], delays[i])
    ensures |plan| == |runtime| == |busy| == |delays|
  {
  }

  /** A component that is neither ready nor stopping holds no delivered call. */
  lemma NotServing(plan: seq<ComponentPlan>, runtime: seq<Runtime>, busy: seq<Busy>, pending: seq<PendingCall>, i: nat)
    requires BusyInv(plan, runtime, busy, pending) && i < |plan| && runtime[i].state != Ready
    requires runtime[i].state != Stopping
    ensures NoDeliveredTo(pending, i)
  {
  }

  /** Once a component's running generation has been failed, no call concerns it any more. */
  lemma NobodyLeft(plan: seq<ComponentPlan>, runtime: seq<Runtime>, busy: seq<Busy>, pending: seq<PendingCall>, i: nat)
    requires BusyInv(plan, runtime, busy, pending) && i < |plan|
    requires forall k :: 0 <= k < |pending| && pending[k].provider == i
               ==> pending[k].delivered && pending[k].providerGeneration != runtime[i].generation
    ensures NoCallsTo(pending, i) && busy[i].inflight == 0
  {
    forall k | 0 <= k < |pending| ensures pending[k].provider != i {
      assert pending[k].delivered ==> DeliveredTo(pending[k], runtime[pending[k].provider]);
    }
    DeliveredNone(pending, i);
  }

  /** Two live components have different start sequences. */
  lemma DistinctStarts(plan: seq<ComponentPlan>, runtime: seq<Runtime>, delays: seq<seq<nat>>, starts: seq<nat>,
                       i: nat, j: nat)
    requires LifeInv(plan, runtime, delays, starts, |plan|) && i < |plan| && j < |plan| && i != j
    requires runtime[i].pid > 0 && runtime[j].pid > 0
    ensures runtime[i].startSequence != runtime[j].startSequence
  {
    assert LifeAt(runtime[i], delays[i]) && LifeAt(runtime[j], delays[j]);
    assert StartedAs(runtime[i], starts, i) && StartedAs(runtime[j], starts, j);
  }

  // ---- Ordered shutdown ----

  /** Increasing in start sequence. */
  ghost predicate ByStart(runtime: seq<Runtime>, order: seq<nat>) {
    && (forall k :: 0 <= k < |order| ==> order[k] < |runtime|)
    && (forall j, k :: 0 <= j < k < |order| ==> runtime[order[j]].startSequence < runtime[order[k]].startSequence)
  }

  /** What the stop sequence must look like between two of its steps, with `current` being stopped. */
  ghost predicate StopSequence(runtime: seq<Runtime>, order: seq<nat>, current: Option<nat>, log: seq<nat>) {
    && ByStart(runtime, order)
    && (forall i :: 0 <= i < |runtime| && runtime[i].pid > 0 ==> i in order || current == Some(i))
    && (forall i :: 0 <= i < |runtime| ==> runtime[i].state != Waiting && runtime[i].state != Backoff)
    && (forall j, k :: 0 <= j < k < |log| ==> log[j] > log[k])
    && (log != [] ==> forall k :: 0 <= k < |order| ==> runtime[order[k]].startSequence < log[|log|-1])
  }

  ghost predicate StopInv(runtime: seq<Runtime>, shuttingDown: bool, done: bool, order: seq<nat>,
                          current: Option<nat>, log: seq<nat>) {
    if !shuttingDown then !done && order == [] && current == None && log == []
    else
      && StopSequence(runtime, order, current, log)
      && (done ==> current == None && order == [])
      && (!done ==> current.Some?)
      && (current.Some? ==> BeingStopped(runtime, current.value, log))
  }

  /** The component being stopped is live, and was signalled last. */
  ghost predicate BeingStopped(runtime: seq<Runtime>, i: nat, log: seq<nat>) {
    i < |runtime| && runtime[i].pid > 0 && runtime[i].state == Stopping && log != [] &&
    log[|log|-1] == runtime[i].startSequence
  }

  lemma AppendByStart(runtime: seq<Runtime>, order: seq<nat>, i: nat)
    requires ByStart(runtime, order) && i < |runtime|
    requires forall x :: x in order ==> x < |runtime| && runtime[x].startSequence < runtime[i].startSequence
    ensures ByStart(runtime, order + [i])
  {
    forall k | 0 <= k < |order| ensures runtime[order[k]].startSequence < runtime[i].startSequence {
      assert order[k] in order;
    }
  }

  lemma LastByStart(runtime: seq<Runtime>, order: seq<nat>)
    requires ByStart(runtime, order) && order != []
    ensures var n := |order| - 1;
      && ByStart(runtime, order[..n]) && order[n] < |runtime|
      && (forall x :: x in order[..n] ==> x < |runtime| && runtime[x].startSequence < runtime[order[n]].startSequence)
      && (forall x :: x in order <==> x in order[..n] || x == order[n])
  {
    assert order == order[..|order|-1] + [order[|order|-1]];
  }

  /** Inserts a live component into the stop order. */
  function InsertByStart(runtime: seq<Runtime>, order: seq<nat>, i: nat): (r: seq<nat>)
    requires ByStart(runtime, order) && i < |runtime|
    requires forall x :: x in order ==> x < |runtime| && runtime[x].startSequence != runtime[i].startSequence
    ensures ByStart(runtime, r) && forall x :: x in r <==> x in order || x == i
  {
    if order == [] then [i]
    else
      var n := |order| - 1;
      LastByStart(runtime, order);
      if runtime[order[n]].startSequence < runtime[i].startSequence then
        AppendByStart(runtime, order, i);
        order + [i]
      else
        var r := InsertByStart(runtime, order[..n], i);
        AppendByStart(runtime, r, order[n]);
        r + [order[n]]
  }

  /** A component that is no longer live may be dropped from the stop sequence. */
  lemma StopGone(runtime: seq<Runtime>, order: seq<nat>, current: Option<nat>, log: seq<nat>, i: nat, r: Runtime)
    requires StopSequence(runtime, order, current, log) && i < |runtime|
    requires r.startSequence == runtime[i].startSequence && r.pid <= 0 && r.state != Waiting && r.state != Backoff
    ensures StopSequence(runtime[i := r], order, if current == Some(i) then None else current, log)
  {
  }

  /** Replacing the record of a live component that stays live. */
  lemma StopKeeps(runtime: seq<Runtime>, shuttingDown: bool, done: bool, order: seq<nat>, current: Option<nat>,
                  log: seq<nat>, i: nat, r: Runtime)
    requires StopInv(runtime, shuttingDown, done, order, current, log) && i < |runtime|
    requires r.startSequence == runtime[i].startSequence && r.pid == runtime[i].pid
    requires shuttingDown ==> r.state != Waiting && r.state != Backoff
    requires shuttingDown && current == Some(i) ==> r.state == Stopping
    ensures StopInv(runtime[i := r], shuttingDown, done, order, current, log)
  {
  }
}
