# Verification of the MSYS supervisors

MSYS runs a small graphical system out of supervised components. It has two supervisors, a Python reference daemon and a
native C++ one, and several protocols around them. This project models the parts where many operations share state and
proves what they promise together, for all inputs and all runs.

- **Native router and supervisor** (`NativeState`, `NativeSteps`, `NativeSupervisor`, `NativeProgress`). The two C++ classes
  call each other synchronously, so they are one class here. Reactor callbacks are events that may come in any order;
  what the operating system answers (spawns, sends, timers, the clock) is an arbitrary stream. Calls are queued, delivered
  to a generation of a component, and answered, timed out or abandoned; components start in dependency order, restart within
  a budget, are reclaimed when idle, and are shut down one by one.
- **Plan compiler, plan parser and catalog** (`PlanText`, `PlanRecords`, `PlanFormat`, `PlanParser`, `PlanSource`,
  `PlanCompiler`, `NativeCatalog`). A Python printer and a C++ parser of a tab, line and hexadecimal format; strings are byte
  strings. `PlanSource` says, without the compiler, which source documents are accepted and what a plan says of one.
- **Three dependency checks** (`DependencyGraph`, `TextOrder`, `KahnSort`, `DepthFirst`, `PlanGraphCheck`,
  `CatalogGraphCheck`), all against one definition of a cycle that mentions none of them.
- **Roles and the display** (`RoleRegistry`, `RoleCandidates`, `RoleSwitch`, `DisplayFence`, `DisplayScene`, `DisplayEvents`,
  `DisplayOutcome`, `DisplaySession`).
  Leases, switching a role, migrating the display to another provider with rollback, and recovery after a loss. Starting and
  stopping a component and writing the preference file are arbitrary streams of successes and failures. What runs between two
  awaits is one step; at every await other tasks may do anything: processes fail, exit unseen and come up, are stopped by others,
  are asked for by role calls, so that displays are lost and roles taken. A task that handles a loss waits for the lock which a
  migration holds, and whatever waits for that task in turn is modelled as never ending. `DisplayScene` says on values what a wait
  can change, and that it may be chained; `DisplayEvents` what single steps come to; `DisplayOutcome` how a migration can end.
- **Role calls** (`Failover`), **events** (`Subscriptions`, `EventBus`), **bytes** (`Utf8`, `JsonStrings`, `BrokerSession`) and
  the **process scan** (`ProcessScan`).

Each class carries an invariant that every operation keeps; ghost fields hold the history (replies sent, starts, admissions,
bytes on the wire) that the run-level statements speak about. Imperative code is proved against functions on values, and
the promises are lemmas about those functions.

## Where the code and its promises differ

- An armed idle timer does not imply that its component is ready. `on_child_exit` removes the timer and then fails the calls in
  flight, which arms it again while the state is still ready. `OnChildExit` states exactly when a timer is left behind, `Run` that
  this is the only way over all runs, and `IdleTimerCanOutliveReady` with `ExitLeavesTimer` gives an input. Idle reclaim is still
  safe: `IdleTimerFired` stops nothing that has a delivered call.
- A call that may not be repeated can reach two providers: if a provider itself answers with the code `NO_PROVIDER_SOCKET`, the
  dispatcher takes the call for undelivered. `SecondIsAsked` says that it happens exactly then.
- The process snapshot is documented as ordered by process id (`msys_core/msysd.py:321`); the code orders it by memory, then by
  id. `NotByPid` is an input, `OrderedByPid` the exact condition. The model follows the code.
- A display migration is to end as succeeded or rolled back (the repository's `README.md:300-308`). It may never end, for it holds
  the lock on which every handling of a loss waits (`msys_core/msysd.py:4509`, `4773`). It waits for itself on four ways: when it
  makes a component ready that shows the display with a process whose exit nobody has seen yet (`2213-2219`, `3271`; the target, or
  in a rollback the old provider); when it awaits a process whose watcher handles a loss (`3112`); when it needs the start lock of a
  component that another starter holds while it handles a loss; and when it stops the provider that shows the display (`6147-6151`).
  `Migrate` states, for when nobody waits for the lock as it begins: it never ends only if the display was lost meanwhile, and in an
  outage, unless the role was called, only if the target held the role, was preferred, or had no process; if no other task does
  anything and the target can be given the role at all, it never ends exactly if the target shows the display with an exit nobody
  has seen. `GoesWrong` gives inputs, for all sessions of a kind: an exit at the first wait; in an
  outage, a loss at the first wait with a preferred target that has no process; outside an outage, a loss at the first wait to a
  task that starts the old provider.
- A migration that began outside an outage can succeed and leave an outage open: the display was lost before the role was given,
  with no consumer to restart, or while the old provider was retired. `Migrate` states that an outage is left open exactly if the
  display was lost, and `GoesWrong` an input.
- A loss between taking the role and writing the preference need not make it fail: an operator's stop of the new provider begins an
  outage at once but waits for the migration, so both ownership checks pass (`msys_core/msysd.py:5235-5250`, `6139-6151`). `Handed` says
  that, unless the role was called, only such stops are lost displays between; `Stopped` that with nothing but them the migration
  succeeds exactly if nothing was lost when the fence was last looked at for a consumer, and always if there is no consumer, however
  often the display was lost. In an outage nothing was lost.
- The revision of an outage does not count its losses across a rollback, which puts back the record it looked at:
  `LossForgotten` is an input, `RevisionCountsLosses` says exactly when the revision is lowered.

## Model

| member | source | states |
|---|---|---|
| `DependencyGraph.StuckIsCyclic` | msys_core/msysd.py:1281-1312 | A set in which everybody waits for somebody in the set contains a cycle; this is what makes "no more progress" mean "cyclic". |
| `DependencyGraph.OrderedIsAcyclic` | native/scripts/compile_runtime_plan.py:182-210 | A graph with an order that puts every dependency first has no cycle. |
| `TextOrder.Sorted` | native/scripts/compile_runtime_plan.py:361-366 | Sorting strings keeps exactly the given strings, strictly increasing. |
| `TextOrder.IncreasingUnique` | native/scripts/compile_runtime_plan.py:361-366 | A strictly increasing list is determined by the set of its elements, so sorting does not depend on the input order. |
| `TextOrder.Lexicographic` | native/scripts/compile_runtime_plan.py:190-207 | Strings are compared by the first character that differs; a proper prefix comes first. |
| `KahnSort.StartOrderCorrect` | native/scripts/compile_runtime_plan.py:182-210 | The start order puts every dependency before its dependents, and it contains every node if and only if the graph is acyclic. |
| `KahnSort.TopologicalComponents` | native/scripts/compile_runtime_plan.py:182-210 | The indegree-and-heap sort, for components that may repeat a dependency: it succeeds exactly for sortable acyclic components, each of the five errors is returned exactly when its rule is the first one broken, and success is the listed components in the canonical start order. |
| `KahnSort.Ascending` | native/scripts/compile_runtime_plan.py:204-204 | Sorting dependents keeps every mention of each, and nobody comes after somebody greater. |
| `KahnSort.Drain` | native/scripts/compile_runtime_plan.py:198-207 | The heap loop computes the start order, which is defined without indegrees or heaps. |
| `KahnSort.Tables` | native/scripts/compile_runtime_plan.py:188-197 | The dependents lists and indegrees are those of the graph, with repetitions counted, or the error is that of the first bad reference in the order of the listing. |
| `KahnSort.SortIgnoresOrder` | native/scripts/compile_runtime_plan.py:182-210 | For any two listings of the same components the sort succeeds for both or for none, finds a cycle in both or in none, and the two answers are the same list. |
| `PlanGraphCheck.ValidateGraph` | native/src/native_lite_plan.cpp:239-285 | The marking search accepts a component list exactly when ids are unique, one component is critical, dependencies are known, distinct and not reflexive, and the graph is acyclic; it reports a cycle exactly for the cyclic ones. |
| `PlanGraphCheck.Visit` | native/src/native_lite_plan.cpp:268-281 | The recursive search with marks 0, 1 and 2: when it fails, a path goes on from the open components through the visited one and runs back into itself; otherwise everything reachable is finished. |
| `PlanGraphCheck.CheckReferences` | native/src/native_lite_plan.cpp:253-266 | A component's dependencies are known, are not itself and are not repeated, or the error is the one of the first reference that breaks a rule. |
| `CatalogGraphCheck.ValidateDependencyGraph` | msys_core/msysd.py:1281-1312 | The visiting/visited search rejects exactly missing requirements and cyclic graphs, and the path it reports is a real cycle. |
| `CatalogGraphCheck.SameGraphAsPlan` | msys_core/msysd.py:1281-1312 | On the components of a plan the third check sees the same graph as the other two, so the three agree. |
| `NativeState.AnswerStep` | native/src/native_router.cpp:430-443 | Removing a call and replying to its caller keeps every accepted call settled exactly once. |
| `NativeState.AbandonStep` | native/src/native_router.cpp:173-190 | Dropping a call of a closed session keeps every accepted call settled: no reply is owed to a closed session. |
| `NativeState.AcceptStep` | native/src/native_router.cpp:300-315 | Giving a call the next forwarded id keeps ids unique and every accepted call settled. |
| `NativeState.EraseStep` | native/src/native_router.cpp:445-457 | Erasing a delivered call and lowering the provider's count keeps every count equal to the number of delivered calls. |
| `NativeState.DeliverStep` | native/src/native_router.cpp:347-379 | Recording a delivery and raising the count keeps counts exact and the delivered call in the provider's running generation. |
| `NativeState.DistinctStarts` | native/src/native_lite_supervisor.cpp:809-821 | Two live components never have the same start sequence. |
| `NativeState.InsertByStart` | native/src/native_lite_supervisor.cpp:1208-1223 | The stop order is increasing in start sequence and holds exactly the collected components. |
| `NativeSteps.IdleMeansIdle` | native/src/native_lite_supervisor.cpp:402-455 | A ready component whose idle timer is armed has no delivered call pending and the timer belongs to its running generation. |
| `NativeSteps.FirstUsable` | native/src/native_router.cpp:240-261 | The chosen candidate has not failed and all before it have; none is chosen only if all have. |
| `NativeSteps.Spared` | native/src/native_router.cpp:161-171 | Exactly the calls that neither wait for the component nor were delivered to the given generation. |
| `NativeSteps.OneMoreStart` | native/src/native_lite_supervisor.cpp:600-645 | The check before a start means that no component it is ordered after is waiting, starting, backing off or stopping, and every start recorded stays so. |
| `NativeSteps.ExitedState` | native/src/native_lite_supervisor.cpp:1132-1195 | A component that has exited backs off if and only if its policy asks for a restart (always, or on failure if it failed), the budget is not spent, and it was not stopped by hand; otherwise it is failed or stopped as its exit was, or stopped if by hand. |
| `NativeSteps.SparedOnly` | native/src/native_router.cpp:161-171 | Of a component's calls only those delivered to another generation survive. |
| `NativeSupervisor.RestartDelay` | native/src/native_lite_supervisor.cpp:1139-1146 | The delay loop computes min(max, initial * 2^(k-1)) for every k and never exceeds 32 bits. |
| `NativeSupervisor.Core.ArmIdleTimeout` | native/src/native_lite_supervisor.cpp:424-455 | The idle timer is armed for the running generation exactly if the component is on demand, ready and has no call in flight; else it is disarmed. |
| `NativeSupervisor.Core.ProviderBusyDelta` | native/src/native_lite_supervisor.cpp:402-416 | The count goes up (saturating) or down (never below zero) and the idle timer is disarmed or reconsidered. |
| `NativeSupervisor.Core.ErasePending` | native/src/native_router.cpp:445-457 | The call is gone from the table and its provider's count stays exact. |
| `NativeSupervisor.Core.FailPending` | native/src/native_router.cpp:430-443 | The call at the position is removed and exactly one error goes to its own caller; a position past the end changes nothing. |
| `NativeSupervisor.Core.ComponentUnavailable` | native/src/native_router.cpp:161-171 | Exactly the calls that wait for the component or were delivered to that generation fail, in order, one error each; the others stay. |
| `NativeSupervisor.Core.SessionClosed` | native/src/native_router.cpp:173-190 | The session's own calls are dropped without a reply; if it was a component's channel exactly the calls depending on it fail, with one error each, in order; nothing else changes. |
| `NativeSupervisor.Core.CloseComponentSession` | native/src/mipc_broker.cpp:307-323 | Exactly the channels of that component generation are closed, every call is still settled exactly once, and calls to other components stay as long as their callers are connected. |
| `NativeSupervisor.Core.Deliver` | native/src/native_router.cpp:347-379 | The call is delivered to the running generation exactly if its deadline is ahead, a channel of that generation is open and the send succeeds; otherwise it is removed and its caller told which it was. |
| `NativeSupervisor.Core.ComponentReady` | native/src/native_router.cpp:150-159 | No call waits behind the component afterwards, no call is added, and none is lost while deadlines hold and sends succeed. |
| `NativeSupervisor.Core.RouteCall` | native/src/native_router.cpp:230-345 | A call gets a forwarded id if and only if its target resolves and deadline, table size and id space allow it; otherwise its caller is told which of these failed and nothing changes. The id is for the provider the target resolves to, until the given deadline or five seconds from now. A ready provider is given the call in its running generation, or its caller one error; one on its way up is waited for; one that is stopping fails it; one that is down is woken. |
| `NativeSupervisor.Core.QueueProviderCall` | native/src/native_router.cpp:276-345 | The id given is the next one, recorded with its caller, this provider and the deadline; what becomes of the call is the same as for `RouteCall`, whatever the re-entrant activation does. |
| `NativeSupervisor.Core.AcceptAndFail` | native/src/native_router.cpp:300-312 | When the deadline timer cannot be made the id is spent and the caller gets exactly one reply. |
| `NativeSupervisor.Core.Serve` | native/src/native_router.cpp:322-332 | A ready provider is given the call, or it is removed with one error; one that is on its way up is waited for; one that is stopping fails it; otherwise activation may already have served or removed it, and the remembered position then points past the end. |
| `NativeSupervisor.Core.Withdraw` | native/src/native_router.cpp:330-332 | Failing by the remembered position removes that call with one error to its caller, or changes nothing if the position points past the end. |
| `NativeSupervisor.Core.ProviderReply` | native/src/native_router.cpp:381-414 | An answer is accepted if and only if the call is pending, delivered, and the answering session is that provider in that generation; then exactly one reply goes to the caller; otherwise nothing changes. |
| `NativeSupervisor.Core.CallTimeout` | native/src/native_router.cpp:416-428 | A pending call is removed with one timeout error to its caller; an unknown id changes nothing. |
| `NativeSupervisor.Core.CloseSession` | native/src/mipc_broker.cpp:1026-1049 | The session's calls are dropped and dependants fail; a running component whose channel closed is told to stop and no call to it is left; an unknown session changes nothing. |
| `NativeSupervisor.Core.BeginStart` | native/src/native_lite_supervisor.cpp:809-821 | A start raises the generation and the start sequence, clears the flags, takes the component out of the waiting ones, and is recorded with the states everybody is in. |
| `NativeSupervisor.Core.Launch` | native/src/native_lite_supervisor.cpp:809-878 | A process exists afterwards exactly if the channel, the pipe and the spawn all succeeded; only this component changes. |
| `NativeSupervisor.Core.SpawnComponent` | native/src/native_lite_supervisor.cpp:809-905 | Called only when no dependency is on its way; records one start, strictly fewer components wait, and only started components change. The component is then ready, starting, stopping, backing off or failed, as spawn, channel, readiness mode and timer say. |
| `NativeSupervisor.Core.HandleSpawnFailure` | native/src/native_lite_supervisor.cpp:907-924 | The component goes to backoff or stays down by its policy, its idle timer and channel are gone, no call to it is left and calls to others stay; without a channel to close, exactly the affected callers are told, in the order of their calls. |
| `NativeSupervisor.Core.MarkReady` | native/src/native_lite_supervisor.cpp:975-997 | A signal of another generation or for a component that is not starting changes nothing; otherwise the component is ready and only waiting components are started besides. |
| `NativeSupervisor.Core.TurnReady` | native/src/native_lite_supervisor.cpp:975-995 | Only the state of this component changes; no call waits behind it afterwards. |
| `NativeSupervisor.Core.StartEligible` | native/src/native_lite_supervisor.cpp:627-645 | Terminates although it recurses through readiness (the waiting set shrinks); afterwards, unless shutdown began, nothing that waits could be started, and only components that waited and were started have changed. |
| `NativeSupervisor.Core.FailRunningComponent` | native/src/native_lite_supervisor.cpp:1060-1081 | A running component is told to stop, its channel is closed if it has one of its own, its calls have failed, calls to others stay as long as their callers are connected, nothing else changes; one that is not running or already stopping is left alone. |
| `NativeSupervisor.Core.OnChildExit` | native/src/native_lite_supervisor.cpp:1083-1130 | An exit of another generation or process changes nothing; otherwise the component is stopped, in backoff or failed by policy, its channel is closed, no call to it is left, and calls to others stay as long as their callers are connected. Shutdown begins, and the idle timer is left armed, exactly under conditions on plan, budget, calls in flight and restart timer before the call. |
| `NativeSupervisor.Core.ScheduleOrFail` | native/src/native_lite_supervisor.cpp:1148-1195 | Backoff with the prescribed delay if the policy and the budget allow it, else failed or stopped; shutdown begins exactly if the restart timer cannot be made (71) or a critical component is down for good (70). |
| `NativeSupervisor.Core.BackOff` | native/src/native_lite_supervisor.cpp:1151-1187 | One restart is counted and its timer carries the prescribed delay for this generation. |
| `NativeSupervisor.Core.BeginShutdown` | native/src/native_lite_supervisor.cpp:1197-1225 | Nothing waits or backs off afterwards, no process is lost or gained, and a second request can only make a zero exit code nonzero. |
| `NativeSupervisor.Core.CollectLive` | native/src/native_lite_supervisor.cpp:1207-1223 | All restart and idle timers are disarmed and exactly the live components are lined up by start sequence. |
| `NativeSupervisor.Core.StopNext` | native/src/native_lite_supervisor.cpp:1227-1251 | The live component with the highest start sequence is signalled, lower than every one before; with none left the shutdown is done. |
| `NativeSupervisor.Core.PopLive` | native/src/native_lite_supervisor.cpp:1227-1234 | The popped component is live and started later than all that remain. |
| `NativeSupervisor.Core.ExitInShutdown` | native/src/native_lite_supervisor.cpp:1114-1121 | An exit during shutdown is final, and the exit of the component being stopped moves the sequence on. |
| `NativeSupervisor.Core.BrokerStop` | native/src/native_lite_supervisor.cpp:547-575 | A running component is told to stop and its channels are closed, one without a process is stopped at once; nothing else about it changes, it will not come back by itself and its idle timer is gone. |
| `NativeSupervisor.Core.Activate` | native/src/native_lite_supervisor.cpp:373-393 | True exactly when the component is up or on its way; false in shutdown, while stopping, or when the start failed for good. |
| `NativeSupervisor.Core.Wake` | native/src/native_lite_supervisor.cpp:387-392 | A component that is down gets a fresh restart budget, waits, and is started if nothing holds it back. |
| `NativeSupervisor.Core.BrokerStart` | native/src/native_lite_supervisor.cpp:508-545 | Refused in shutdown without a change; otherwise only this component is woken, only waiting components are started, nothing startable is left waiting, and the idle timeout of a launchable one that is up begins again. |
| `NativeSupervisor.Core.ReadinessFailed` | native/src/native_lite_supervisor.cpp:792-807 | A starting component of this generation is told to stop and no call to it is left; a timeout of another generation, or for a component that is not starting, changes nothing. |
| `NativeSupervisor.Core.RestartTimerFired` | native/src/native_lite_supervisor.cpp:1161-1175 | The component waits again and everything startable is started; without an armed timer nothing changes. |
| `NativeSupervisor.Core.IdleTimerFired` | native/src/native_lite_supervisor.cpp:436-450 | Idle reclaim stops the component if and only if it is ready, and then no delivered call of it is pending. |
| `NativeSupervisor.Core.Dispatch` | native/src/native_lite_supervisor.cpp:283-324 | What each event does to the components, to sessions and to calls, event by event; every event keeps the whole invariant, history only grows, forwarded ids are never reused, shutdown is for good and nothing is started in it. |
| `NativeSupervisor.Core.Run` | native/src/native_lite_supervisor.cpp:283-324 | Events are handled in turn, those that cannot occur are skipped, and it ends only when done or when there are no more. Over every run in any order: each accepted call is answered exactly once, to its own caller, or dropped only if that caller is gone, and as long as it is pending it is for the provider and deadline it was accepted for; counts are exact; an armed idle timer of a component that is not ready was left by the exit of a ready one with calls in flight; lifecycles and restart budgets hold; nothing was started while something it is ordered after was waiting, starting, backing off or stopping; stops are in strictly decreasing start order; done means no process is left. |
| `NativeSupervisor.Core.Promises` | native/src/native_router.cpp:150-457 | What the step invariant means to an observer, in the terms of the five promises above. |
| `NativeProgress.WaitingIsHeldUp` | native/src/native_lite_supervisor.cpp:600-645 | In an acyclic plan, once nothing can be started, every waiting component has a chain of dependencies ending in one that is starting, backing off or stopping. |
| `NativeProgress.ParsedIsSupported` | native/src/native_lite_plan.cpp:289-671 | Every plan the parser accepts is within the limits the supervisor relies on, with unique ids, known dependencies and no cycle. |
| `NativeProgress.StartPlan` | native/src/native_lite_supervisor.cpp:600-645 | Hence, for every plan that was read, once everything startable has been started, whoever still waits is held up by such a chain. |
| `NativeProgress.IdleTimerCanOutliveReady` | native/src/native_lite_supervisor.cpp:1083-1108 | A state with an open channel and one delivered call satisfies every invariant. |
| `NativeProgress.ExitLeavesTimer` | native/src/native_lite_supervisor.cpp:1083-1108 | In that state an exit that is not fatal leaves the idle timer armed on a component that is not ready. |
| `PlanText.SplitFields` | native/src/native_lite_plan.cpp:103-116 | The cursor loop returns the tab-separated fields. |
| `PlanText.SplitJoin` | native/src/native_lite_plan.cpp:103-116 | Splitting inverts joining for fields without tabs. |
| `PlanText.SplitLines` | native/src/native_lite_plan.cpp:75-101 | The lines of the text, or failure if any is empty, too long or holds a carriage return, or if there is none. |
| `PlanText.LinesUnlines` | native/src/native_lite_plan.cpp:75-101 | Splitting inverts writing lines. |
| `PlanText.UnlinesIsJoin` | native/scripts/compile_runtime_plan.py:476-479 | Writing lines is joining them with newlines and one at the end. |
| `PlanText.ParsePrinted` | native/src/native_lite_plan.cpp:118-132 | A printed number in range parses back to itself. |
| `PlanText.DecodeHexField` | native/src/native_lite_plan.cpp:147-166 | The loop decodes exactly what the pairwise definition decodes, with its length, digit and NUL failures. |
| `PlanText.HexRoundTrip` | native/src/native_lite_plan.cpp:147-166 | Decoding inverts encoding for every NUL-free byte string. |
| `PlanRecords.HeaderReadsBack` | native/src/native_lite_plan.cpp:418-477 | A component header line of either version reads back, with all ranges, and fits the line limit. |
| `PlanRecords.DecodedHeaderOk` | native/src/native_lite_plan.cpp:418-477 | Whatever header is accepted satisfies every range the parser promises. |
| `PlanRecords.EnvReadsBack` | native/src/native_lite_plan.cpp:506-536 | An environment record reads back; key syntax, value bound and reserved names agree between writer and reader. |
| `PlanRecords.ProvideReadsBack` | native/src/native_lite_plan.cpp:539-567 | A provide record reads back. |
| `PlanRecords.MetadataReadsBack` | native/src/native_lite_plan.cpp:602-616 | The longest record reads back and stays within the line limit. |
| `PlanRecords.WindowReadsBack` | native/src/native_lite_plan.cpp:617-640 | A window record reads back. |
| `PlanRecords.PackageReadsBack` | native/src/native_lite_plan.cpp:585-601 | A package record reads back. |
| `PlanRecords.ProfileReadsBack` | native/src/native_lite_plan.cpp:310-332 | The profile record reads back. |
| `PlanFormat.RecordsReadBack` | native/src/native_lite_plan.cpp:479-504 | Counted runs of written records read back as the values, leaving the rest. |
| `PlanFormat.ComponentReadsBack` | native/src/native_lite_plan.cpp:414-650 | All lines of a component read back as that component, leaving the rest. |
| `PlanFormat.ProfileReadsBackAt` | native/src/native_lite_plan.cpp:309-413 | Profile, roles with their providers, environment and startup read back. |
| `PlanFormat.ParseInvertsPrint` | native/src/native_lite_plan.cpp:289-671 | For every plan with the compiler's guarantees and within the size limit, the parser accepts its text and returns it. |
| `PlanFormat.HeaderInFull` | native/scripts/compile_runtime_plan.py:446-453 | How a component header is written, by an example with a different value in each column. |
| `PlanFormat.WordsInFull` | native/scripts/compile_runtime_plan.py:236-252 | The words of the format. |
| `PlanFormat.RecordsInFull` | native/scripts/compile_runtime_plan.py:454-461 | How argument, dependency, environment, provide and permission records are written, by example. |
| `PlanFormat.TextsInFull` | native/scripts/compile_runtime_plan.py:462-468 | The same of package and metadata records. |
| `PlanFormat.WindowInFull` | native/scripts/compile_runtime_plan.py:469-474 | The same of a window record. |
| `PlanFormat.ProfileInFull` | native/scripts/compile_runtime_plan.py:435-444 | The same of the records of a profile and of the grace time. |
| `PlanParser.ReadRecords` | native/src/native_lite_plan.cpp:479-489 | The counted loop reads exactly the specified records and advances the cursor past them. |
| `PlanParser.ReadUnique` | native/src/native_lite_plan.cpp:506-536 | The counted loop with a set of keys seen accepts exactly records with pairwise different keys. |
| `PlanParser.ParseComponents` | native/src/native_lite_plan.cpp:414-650 | The component loop reads to the end and refuses a 65th component. |
| `PlanParser.ParseRuntimePlan` | native/src/native_lite_plan.cpp:289-671 | The whole imperative parser computes exactly the specified plan or fails exactly when there is none. |
| `PlanCompiler.ByKeyKeeps` | native/scripts/compile_runtime_plan.py:156-164 | Sorting entries by key loses none and repeats none. |
| `PlanCompiler.NormalizedComponentOk` | native/scripts/compile_runtime_plan.py:91-179 | Every accepted component of either version satisfies all guarantees the format needs. |
| `PlanCompiler.ComponentAccepted` | native/scripts/compile_runtime_plan.py:91-369 | A source component of either version is accepted if and only if its words, numbers and lists are as stated without the compiler, and then the plan component has its values: kind, critical flag, restart policy, readiness mode and timeout, backoff with its defaults, arguments, the same dependencies and environment entries sorted, and all version 2 settings. |
| `PlanCompiler.ProvideAccepted` | native/scripts/compile_runtime_plan.py:292-318 | A provide is accepted exactly if it declares one service with a valid name and a priority in range, and keeps all four. |
| `PlanCompiler.NormalizeService` | native/scripts/compile_runtime_plan.py:217-369 | The version 2 settings: ranges, the idle timeout rule, and counts that agree with the lists. |
| `PlanCompiler.NormalizedProfileOk` | native/scripts/compile_runtime_plan.py:378-415 | Every accepted profile satisfies all guarantees the format needs. |
| `PlanCompiler.ProfileAccepted` | native/scripts/compile_runtime_plan.py:378-415 | A profile is accepted if and only if its fields are in range, and then id, display, startup, environment entries and role preferences are those of the document. |
| `PlanCompiler.ArrangedIsWellOrdered` | native/scripts/compile_runtime_plan.py:182-210 | Sorted components are the same components, in start order, and pass the parser's graph check. |
| `PlanCompiler.NormalizedOk` | native/scripts/compile_runtime_plan.py:372-531 | Every accepted document yields a plan with all guarantees. |
| `PlanCompiler.NormalizedStands` | native/scripts/compile_runtime_plan.py:372-531 | The plan of an accepted document says what the document says: grace time with its default, profile, and for every source component the one with its values, no other, in start order. |
| `PlanCompiler.RoundTrip` | native/scripts/compile_runtime_plan.py:372-531 | For every document the compiler accepts, version 1 or 2, parsing the text it writes gives exactly the normalized plan. |
| `PlanCompiler.EmitLines` | native/scripts/compile_runtime_plan.py:435-475 | The appending loops write exactly the lines of the plan. |
| `PlanCompiler.CompileDocument` | native/scripts/compile_runtime_plan.py:482-531 | The compiler returns the text of the normalized plan, or fails exactly when there is none or it exceeds 1 MiB; and the parser reads that text as a plan which says, field by field, what the document says. |
| `NativeCatalog.BuildCatalog` | native/src/native_catalog.cpp:38-124 | The constructor refuses exactly the plans that break its conditions, and otherwise lists exactly the declared providers of every role and interface, best first. |
| `NativeCatalog.InsertRanked` | native/src/native_catalog.cpp:12-23 | Insertion keeps the candidate order and the candidates. |
| `NativeCatalog.PreferredFirst` | native/src/native_catalog.cpp:12-23 | In a complete list those the profile prefers come first, in its order; the others follow by falling priority and then as in the plan. |
| `NativeCatalog.ListedAsDeclared` | native/src/native_catalog.cpp:38-124 | A listed candidate has the priority and exclusiveness its component declares, and is marked as preferred exactly if the profile names it, with its rank there. |
| `NativeCatalog.CandidateProvides` | native/src/native_catalog.cpp:104-123 | A component is among a role's candidates exactly if it provides the role. |
| `NativeCatalog.CompiledPlansHaveCatalogs` | native/src/native_catalog.cpp:38-124 | For every version 2 document the compiler accepts, the catalog constructor never throws. |
| `Utf8.CharacterIsEncoded` | native/src/mipc_json.cpp:18-59 | The grammar in section 4 of RFC 3629 and the encoding in its section 3 describe the same byte sequences. |
| `Utf8.FirstIsEncoded` | native/src/mipc_json.cpp:18-59 | What the validator reads as one character is the encoding of a scalar value. |
| `Utf8.EncodedIsFirst` | native/src/mipc_json.cpp:74-90 | Every encoding of a scalar value is read as that value. |
| `Utf8.Utf8Step` | native/src/mipc_json.cpp:18-59 | A text is UTF-8 exactly if it starts with a character and continues as UTF-8. |
| `Utf8.ValidUtf8` | native/src/mipc_json.cpp:18-59 | The validator accepts exactly the concatenations of encoded Unicode scalar values. |
| `JsonStrings.JsonQuote` | native/src/native_router.cpp:30-71 | The loop writes the quoted string. |
| `JsonStrings.QuotedHasNoControls` | native/src/mipc_broker.cpp:171-212 | A quoted string holds no control byte, so it never breaks a line. |
| `JsonStrings.UnquoteInvertsQuote` | native/src/mipc_broker.cpp:171-212 | Unquoting inverts quoting on every byte string, whatever follows. |
| `JsonStrings.SurrogatePair` | native/src/mipc_json.cpp:506-526 | Every supplementary character is read back from its surrogate pair. |
| `JsonStrings.ContentsAreUtf8` | native/src/mipc_json.cpp:466-532 | From valid UTF-8 only valid UTF-8 is read, escapes and surrogate pairs included, and what follows is valid too. |
| `JsonStrings.UnquotedIsUtf8` | native/src/mipc_json.cpp:466-532 | The same for a whole string with its quotes. |
| `JsonStrings.Parser.ParseHexQuad` | native/src/mipc_json.cpp:534-548 | Four hexadecimal digits or failure, with the cursor advanced only on success. |
| `JsonStrings.Parser.ParseUnicode` | native/src/mipc_json.cpp:506-526 | The code point of an escape; a surrogate counts only as half of a pair. |
| `JsonStrings.Parser.ParseString` | native/src/mipc_json.cpp:466-532 | The cursor loop returns exactly the specified contents and stops right after the closing quote. |
| `BrokerSession.FramingOfPieces` | native/src/mipc_broker.cpp:672-711 | Reading a stream in two pieces gives the records of the whole, with the residue carried over. |
| `BrokerSession.FramingIgnoresChunks` | native/src/mipc_broker.cpp:672-711 | However a stream is cut, the same records and the same residue come out. |
| `BrokerSession.Session.SendOne` | native/src/mipc_broker.cpp:966-997 | What the kernel took is on the wire, and the offset says how much of the packet; a component's channel takes a packet whole or fails. |
| `BrokerSession.Session.QueuePacket` | native/src/mipc_broker.cpp:922-964 | Sent bytes followed by the unsent queue are all accepted packets in order, both bounds hold, a packet without room closes the session, and otherwise it stays open exactly if it is queued or the send does not fail. |
| `BrokerSession.Session.Flush` | native/src/mipc_broker.cpp:999-1024 | Nothing is lost, repeated or reordered by any pattern of partial sends; a willing kernel means progress, a broken one closes the session. |
| `BrokerSession.Session.HandlePublicBytes` | native/src/mipc_broker.cpp:672-711 | The session stays open exactly if no record is too long, there are not too many, no handler closes it and the residue is not too long; then the records handled and the residue depend only on all bytes received. |
| `BrokerSession.Session.DrainRecords` | native/src/mipc_broker.cpp:678-703 | The record loop handles exactly the complete records. |
| `Subscriptions.CoversIsContainment` | msys_core/mipc_acl.py:52-68 | For valid patterns the syntactic check holds if and only if every valid topic the request admits is admitted by the grant, under the 128-character bound. |
| `Subscriptions.ContainingCovers` | msys_core/mipc_acl.py:52-68 | The hard direction: containment of all topics implies the syntactic check. |
| `Subscriptions.SubscriberIsEntitled` | msys_core/mipc_acl.py:111-136 | Whoever is allowed a pattern has a grant that matches each topic the pattern admits. |
| `EventBus.Bus.SubscribeTo` | msys_core/msysd.py:3490-3535 | A subscription is added if and only if it is valid, granted and there is room. |
| `EventBus.Bus.Broadcast` | msys_core/msysd.py:6108-6127 | An event goes to exactly the connected, ready listeners whose socket takes it, and over every run everyone who was sent an event has a grant that matches it. |
| `EventBus.Bus.PublishEvent` | msys_core/msysd.py:3536-3562 | An event is published if and only if the topic is valid and granted, and then exactly its listeners are sent it. |
| `RoleCandidates.Folded` | msys_core/roles.py:150-172 | A component's declarations of one role come to the highest priority among them, exclusive as soon as one says so. |
| `RoleCandidates.BuildRole` | msys_core/roles.py:181-224 | Installed profile entries once each in profile order, then the other declared providers by descending priority and id; the role is exclusive exactly if a candidate says so. |
| `RoleCandidates.BuildRoles` | msys_core/roles.py:150-226 | There is a role for each that the profile mentions or somebody declares, unless it is disabled, and its candidates are built from its profile entry and from everybody's folded declarations. |
| `RoleCandidates.CandidatesInFull` | msys_core/roles.py:181-224 | The order of the candidates and what is known of each, in the terms of profile entry and declarations: rank, priority, exclusiveness. |
| `RoleRegistryModel.AcquireStep` | msys_core/roles.py:314-347 | A new lease keeps the token map and the token lists in bijection and exclusive roles at one lease. |
| `RoleRegistryModel.ReleaseStep` | msys_core/roles.py:352-361 | So does giving one back. |
| `RoleRegistryModel.RoleRegistry.SelectPreferred` | msys_core/roles.py:283-288 | The preference is set exactly for candidates of known roles. |
| `RoleRegistryModel.RoleRegistry.ResetPreferred` | msys_core/roles.py:290-295 | The override is gone and nothing else changes. |
| `RoleRegistryModel.RoleRegistry.Acquire` | msys_core/roles.py:314-347 | Granted exactly if the role is known, the candidate is one and an exclusive role is free; the token was never used before and the lease is last in its role; other roles are untouched. |
| `RoleRegistryModel.RoleRegistry.Release` | msys_core/roles.py:352-361 | Exactly this lease is gone; an unknown token changes nothing. |
| `RoleRegistryModel.RoleRegistry.ReleaseProvider` | msys_core/roles.py:363-373 | All leases of the provider are gone, nobody else's, and order is kept. |
| `RoleRegistryModel.RoleRegistry.ActiveFacts` | msys_core/roles.py:375-379 | Active leases are stored leases of that role for its candidates, in acquisition order, and at most one if the role is exclusive. |
| `RoleSwitch.Switcher.Commit` | msys_core/msysd.py:4046-4115 | The committing step succeeds completely or leaves leases by provider, holder and order, preference, override and file as they were; it succeeds exactly if the state is already exact, which then is left alone, or the mode applies and the file can be written; the former holder is to be retired exactly if it is another and holds no role any more; other roles never change. |
| `RoleSwitch.Switcher.RollBack` | msys_core/msysd.py:4104-4115 | The view of the role is exactly the remembered one. |
| `RoleSwitch.Switcher.SwitchRole` | msys_core/msysd.py:4029-4152 | The whole switch with its retries, while other tasks take and release leases: failure leaves the role as the committing step found it and its preference as before; success leaves the provider alone with the role for the process that became ready, unless it held it before, preferred, and durably so exactly if it was selected; the former holder is to be retired exactly if it is another and holds no role any more. |
| `DisplayFence.Fence.RecordFailure` | msys_core/msysd.py:3358-3375 | A fenced consumer's failure changes nothing; otherwise the recent failures plus this one count, five quarantine the component, and fewer give the doubling delay. |
| `DisplayFence.DelayDoubles` | msys_core/msysd.py:3375-3375 | The delay is 250 ms after one failure, then doubles, up to 30 s. |
| `DisplayFence.Fence.SpawnFailed` | msys_core/msysd.py:2336-2341 | A failed start counts as a failure and makes the next start wait for the doubling delay, unless the component is fenced. |
| `DisplayFence.Fence.Spawned` | msys_core/msysd.py:2359-2359 | A start clears the waiting time and no other part of any budget. |
| `DisplayFence.Fence.Renewed` | msys_core/msysd.py:2051-2055 | A changed component starts with an empty budget and no quarantine. |
| `DisplayFence.Fence.BeginOutage` | msys_core/msysd.py:4350-4466 | A first loss captures the consumers' budgets; a further loss keeps id, foreground and all captured budgets, raises the revision by one and takes back every admission; exactly the quarantines as recent as the loss are lifted. |
| `DisplayFence.Fence.RestoreBudget` | msys_core/msysd.py:4531-4549 | History and backoff equal the captured baseline, whatever they have become meanwhile. |
| `DisplayFence.Fence.Admit` | msys_core/msysd.py:4581-4582 | A consumer is let through with exactly the captured budget, and this is recorded for ever. |
| `DisplayFence.Fence.AdmittedWithBaseline` | msys_core/msysd.py:4531-4549 | Over every run, whoever was let through had the one budget its outage captured, unless a rollback had dropped it from the record. |
| `DisplayFence.Fence.Reinstate` | msys_core/msysd.py:4982-4990 | A rollback accepts any later state of the same outage and puts back the record that was looked at; only consumers added since are forgotten. |
| `DisplayFence.LossForgotten` | msys_core/msysd.py:4982-4990 | An input where this lowers the revision: two losses, revision 1. |
| `DisplayScene.RevisionCountsLosses` | msys_core/msysd.py:4414-4420 | While an outage goes on its revision counts the losses, so it equals the one looked at exactly if nothing was lost since; hence a rollback lowers the revision exactly if the display was lost meanwhile. |
| `DisplayScene.PassesThen` | msys_core/msysd.py:3232-3285 | What may happen while a task waits may happen again: the statement about one wait, with failures, exits nobody has seen, starts, stops and role calls by other tasks, holds over any number of them. |
| `DisplayScene.GoneForGood` | msys_core/msysd.py:3232-3285 | A process that was up and is not any more never comes up again; a replacement has another generation. |
| `DisplayScene.StillShown` | msys_core/msysd.py:5235-5257 | If the process that took the role still owns the display, and the role was not called, it has held it ever since, and the display was lost only to stops of that provider, which leave it up until the migration is over. |
| `DisplayScene.NotLost` | msys_core/msysd.py:6131-6153 | As long as the display is lost only to stops of its provider, the role is not called and its process not removed, the same process goes on showing it. |
| `DisplayEvents.ConsumerFenced` | msys_core/msysd.py:2198-2201 | Outside an outage, if nothing stirs, a consumer without a process comes up only if there is no outage when the fence is looked at, and then it does unless its start fails. |
| `DisplayEvents.WasStarted` | msys_core/msysd.py:2171-2251 | A start that found nothing in its way, and succeeds, leads to a process that is up if nothing stirs; a quarantine or a stop under way comes from nowhere else. |
| `DisplayOutcome.ConcludeStuck` | msys_core/msysd.py:4913-4939 | Retiring the old provider after the preference was written can only wait for ever if that provider was held up before the role was given, or the role was called since. |
| `DisplayOutcome.QuietProceeded` | msys_core/msysd.py:5094-5328 | If no other task does anything, a migration that got as far as giving the role ends, and succeeds if nothing was in the way. |
| `DisplayOutcome.StopsProceeded` | msys_core/msysd.py:5191-5281 | If other tasks only stop the provider once it has the role, a migration outside an outage succeeds exactly if nothing was lost when the fence was last looked at. |
| `DisplayOutcome.WrongAbandoned` | msys_core/msysd.py:5302-5316 | An outage whose display is lost while the preferred provider comes up: giving up means to stop whoever shows the display, and never ends. |
| `DisplayOutcome.WrongProceeded` | msys_core/msysd.py:5269-5281 | The display is lost to a task that starts the old provider, with nobody to restart: the migration never ends; lost to any other, it succeeds and leaves an outage. |
| `DisplaySession.DisplayManager.Interfere` | msys_core/msysd.py:3232-3285 | Whatever other tasks do at a wait, in any number and order, changes the session only as said on values, and nothing else counts as stirring than what is not a stop of the provider that shows the display. |
| `DisplaySession.DisplayManager.EnsureReady` | msys_core/msysd.py:3044-3127 | A ready component is returned, a stopping, quarantined or fenced one refused, another started and awaited; it never ends only if the component shows the display with a process whose exit nobody has seen, or a task that waits for the caller holds up its start or watches its process. |
| `DisplaySession.DisplayManager.Stop` | msys_core/msysd.py:6131-6153 | The process is gone unless the stop fails, and nothing else changes by it; it never ends exactly, as long as nothing stirs, if a task that waits for the caller holds up the component. |
| `DisplaySession.DisplayManager.RestoreRole` | msys_core/msysd.py:4879-4904 | Override, preference and leases are back, each lease for the provider's process if that is up and else for whom it was, whatever the file does; success means the file holds the overrides. |
| `DisplaySession.DisplayManager.GiveRole` | msys_core/msysd.py:4852-4877 | The provider alone holds the role and is preferred, or the mode does not apply and nothing changes. |
| `DisplaySession.DisplayManager.RestartConsumers` | msys_core/msysd.py:5191-5233 | If the outage is not the one looked at, no consumer is touched; on success every consumer but those quarantined came up as a new process since the role changed hands, no process from before is left, quarantined or not, whatever happened meanwhile, and the new ones are still there if nothing stirred; outside an outage, if nothing stirs and nothing is in the way, it succeeds exactly if nothing was lost when the fence was last looked at. |
| `DisplaySession.DisplayManager.Retire` | msys_core/msysd.py:4913-4939 | A provider is gone or holds another role after at most three stops; the stop of one that shows the display never ends, and as long as nothing stirs no other one does but for tasks that wait for the caller. |
| `DisplaySession.DisplayManager.RollBack` | msys_core/msysd.py:4974-5092 | Unless it never ends, override and leases are back at one moment, each for the process that is up by then; in an outage the record looked at is put back and consumers get their captured budgets; without reported failures the tried consumers and the old provider came up, in an outage no replaced consumer is left, a provider that was started for the migration is gone or held another role, and all this still holds if no other task did anything since. In peace it never ends only for an old provider that shows the display with an exit nobody has seen, or for somebody held up. |
| `DisplaySession.DisplayManager.Confirm` | msys_core/msysd.py:5235-5267 | The file is written only if the same process of the new provider still shows the display, before and after the foreground is activated; as long as nothing stirs this succeeds exactly if the outage still is the one looked at, and whatever was lost at that wait was lost to stops of the provider. |
| `DisplaySession.DisplayManager.Conclude` | msys_core/msysd.py:5259-5281 | The old provider is retired only after the preference is written, and on success it has no process or holds another role at the end; that never ends only if it was held up before the role was given or the role was called; in an outage success means that it is still the one looked at. |
| `DisplaySession.DisplayManager.Migrate` | msys_core/msysd.py:5094-5328 | With anything other tasks may do at every wait. Success: the same process took the role and showed the display at the write, the losses between are stops of that provider, every consumer not quarantined came up anew, no process of a consumer from before is left, and the old provider has no process or holds another role; in an outage nothing was lost since the snapshot, and it is over. Failure: preferences back, and if the role had changed hands, leases, record and budgets; a provider started for it is gone, and in an outage so are replaced consumers. It never ends only after a loss, and in quiet exactly if the target shows the display with an exit nobody has seen. With only stops of the provider after the role was given it succeeds, outside an outage, exactly if nothing was lost when the fence was last looked at. Four kinds of inputs for which it goes wrong are given. |
| `DisplaySession.DisplayManager.LoseDisplay` | msys_core/msysd.py:4468-4499 | The loss of the lease holder begins an outage or raises its revision; running background and session consumers are recorded to come back, other running ones as dropped. |
| `DisplaySession.DisplayManager.Recover` | msys_core/msysd.py:4551-4606 | A recovery ends the outage only if the display was not lost since it began and the same process still shows it, and only after every recorded consumer of the session that was not quarantined was let through with its captured budget; in quiet these are up, as new processes where they had none, unless something was in the way of starting them. A stale recovery leaves the same outage at a later revision; an undisturbed one ends it, and one disturbed only by stops of the provider does exactly if there was none. |
| `Failover.BrokenIsFinal` | msys_core/msysd.py:3453-3467 | After a channel that failed, as opposed to a process that exited or was stopped, nobody else is asked, whether the call may be repeated or not. |
| `Failover.OnlyTheReservedCode` | msys_core/msysd.py:3794-3817 | A call that may not be repeated is tried again if and only if the provider had no channel, or itself answered with the code reserved for that. |
| `Failover.AtMostOneProvider` | msys_core/msysd.py:3764-3821 | Hence such a call is put on at most one provider's channel if no provider answers with that code, and whoever was tried before the last one had no channel or gave that answer. |
| `Failover.SecondIsAsked` | msys_core/msysd.py:3764-3821 | And with two candidates that are usable and connected, before the deadline, it reaches a second one if and only if the first answers with that code. |
| `Failover.ToldInFull` | msys_core/msysd.py:3764-3821 | What the caller is told after each possible outcome of the last try, case by case and for both kinds of calls. |
| `Failover.WhatTheCallerLearns` | msys_core/msysd.py:3764-3821 | The caller gets a reply exactly if that is what came last; it is told that there is no provider exactly if nobody was tried, and that the outcome is unknown exactly if its call may not be repeated and the last provider it was put on was not alive, each unless a provider itself answers with that code. |
| `Failover.FoundIs` | msys_core/msysd.py:3823-3876 | In which order providers are found: the holder, then the preferred one, then the candidates; nobody else while somebody excluded holds a role that may be held once. |
| `Failover.Dispatcher.ForwardCall` | msys_core/msysd.py:3920-3984 | Whatever happens, and while other tasks begin and end calls, the call is over at the end: pending entry and count are back; it is recorded as not sent without a channel, as too late after the deadline, and else as sent with its answer, and the response is that of what is recorded. |
| `Failover.Dispatcher.ProviderForRole` | msys_core/msysd.py:3823-3878 | The provider found was ready, holds the role then and is never an excluded one; nobody is found only if everybody not excluded was looked at or the catalog changed in each of three rounds; with everybody usable and nobody interfering it is the first one not excluded in the order holder, preferred, others, and nobody exactly if all are excluded or an excluded one holds a role that may be held once. |
| `Failover.Dispatcher.Round` | msys_core/msysd.py:3838-3876 | The same of one round; a round that is to be repeated found nobody. |
| `Failover.Dispatcher.DispatchRoleCall` | msys_core/msysd.py:3764-3821 | Terminates, never tries a provider twice, tries only whoever holds the role, and goes on only after an outcome that allows it. The response is a function of what was tried: that of the last try, unknown for a call that may not be repeated and a last provider that is not alive, no provider if nobody was tried. Exactly the tried ones that turned out not to be alive are stopped, in order; with open candidates it goes on until an answer settles the call or all were tried; counts and pending calls are as before. |
| `ProcessScan.Scan` | msys_core/msysd.py:328-387 | The bounded heap yields exactly the first entries of the complete ranking, and truncation is reported exactly when more were eligible. |
| `ProcessScan.InsertAndCut` | msys_core/msysd.py:361-371 | Cutting off after an insertion is the same as replacing the worst kept entry if the new one is better. |
| `ProcessScan.ScanIgnoresOrder` | msys_core/msysd.py:338-387 | The answer does not depend on the order in which processes are listed. |
| `ProcessScan.AtTheTop` | msys_core/msysd.py:361-387 | A process is in the answer if and only if fewer than the limit come before it. |
| `ProcessScan.OrderedByPid` | msys_core/msysd.py:320-387 | The answer is ordered by process id if and only if memory never grows with the id among the eligible processes that fewer than the limit come before. |
| `ProcessScan.NotByPid` | msys_core/msysd.py:320-387 | Two processes answered in the opposite order of their ids. |

## Left out

- The reactor, spawning, signals, pidfds, timerfds, sockets, `/proc` reading, environment building and file permissions: their
  outcomes are events or streams.
- Broker sends that fail and re-enter the router synchronously; the synchronous re-entry through activation is modelled.
- Exceptions thrown by callbacks of the native supervisor (the emergency kill path), and failures to make an idle or a stop
  timer; failing restart and call timers are modelled.
- The foreground stack, its restoration and reactivation, memory reclaim, display fault records and their events.
- Which components the native supervisor starts eagerly: a parameter of the constructor.
- The router's built-in `msys.core` methods, subscriptions and event publishing of the native router.
- JSON documents below the level of typed fields in the plan compiler: wrong types, unknown and missing keys.
- The packet grammar of the JSON parser other than strings: numbers, objects, arrays and nesting limits.
- The handshake of component channels in the broker, and repeating a `send` that was interrupted.
- Failover.Dispatcher.ProviderForRole: a catalog that changes meanwhile restarts the lookup, with the candidates it had; the leases
  that a component takes in other roles when it turns ready are among what other tasks do.
- Locale data, icons, intents, list and summary builders, manifest field validation and isolation.
- DisplaySession.DisplayManager.Migrate: the catalog does not change and no other role is switched meanwhile, clients of the display
  are not candidates for it, and, where several may hold the display role at once, a target which holds it without showing it has
  a process. How long a start waits for its backoff is not modelled. That a process is up is meant as far as the supervisor knows.
- DisplaySession.DisplayManager.EnsureReady: the component has no hard requirements that would have to be made ready first, and none
  that it waits for by its order.
- DisplaySession.DisplayManager.RestartConsumers: the consumers have no hard requirements; one that requires the provider of the display
  could also meet the exit that nobody has seen.
- DisplaySession.DisplayManager.Recover: reactivating the foreground and reporting the fault come after the outage has ended.
- NativeSupervisor.Core.HandleSpawnFailure: for a component with a channel the replies are those of closing the channel, which
  `SessionClosed` states for each of its sessions.
- RoleSwitch.Switcher.SwitchRole: other tasks change leases while the provider is made ready; switches of other roles meanwhile are
  not modelled.
- NativeProgress.ExitLeavesTimer: starts from a state that satisfies every invariant; the run that leads to it is not spelled out.
