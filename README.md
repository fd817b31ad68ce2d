# Scan-only Wi-Fi mode manager, modelled in Dafny

`ScanOnlyModeManager` runs one Wi-Fi client interface in scan-only mode, with no network connection.
Its core is a two-state machine, `IdleState` and `StartedState`. The machine takes its messages one at a time from a single FIFO queue:
`CMD_START`, `CMD_STOP`, `CMD_INTERFACE_STATUS_CHANGED` and `CMD_CLIENT_INTERFACE_BINDER_DEATH`.

- `CMD_START` in Idle runs a chain of remote calls, and any of them can fail:
  - set up a client interface;
  - read its name;
  - create a `NetworkObserver` for the interface and register it.

  The machine enters Started only when every call succeeds and setup returns an interface.
- In Started the machine tracks the link state (`mIfaceIsUp`). It ignores status reports from any observer other than the current one.
- A link-down report queues a `CMD_STOP`, which takes the machine back to Idle.
- Leaving Started and entering Idle both call `unregisterObserver`. That call does nothing once the observer is gone.

The project has three files:

- `scan_only_model.dfy` (module `ScanOnlyModel`) holds the data model as values and the specification functions, one per handler:
  - `Machine` holds every field of the manager and its state machine. It also holds two logs: the observers passed to `registerObserver` and those passed to `unregisterObserver`.
  - `Command` holds the queued messages.
  - `Collaborators` holds what the remote services answer.
  - `Inv` is the invariant of every reachable machine.
- `scan_only_properties.dfy` (module `ScanOnlyProperties`) holds the lemmas about those functions. It also defines `Drain`, which runs the looper until the queue is empty.
- `scan_only_mode_manager.dfy` (module `Manager`) holds the class `ScanOnlyModeManager`. Its fields are updated in place by methods that mirror the Java handlers. Each method is proved to change the fields exactly as the matching specification function says, and the class keeps `Inv` as its `Valid()` invariant.

Some modelling choices:

- Observer identity is a generation number. The source compares references at line 221. Here each `NetworkObserver` gets the number of observers created before it, and `Inv` states that `registered[i].generation == i`.
- The remote calls are inputs:
  - `setupForClientMode`;
  - both `getInterfaceName` calls. Each answers `NameThrew` (a `RemoteException`), `NameNull` (a null string) or `NameIs(name)`;
  - `registerObserver`.
- The code makes four remote calls on the way to Started: `setupForClientMode` (line 148), `getInterfaceName` twice (lines 159 and 167) and `registerObserver` (line 168). It needs five conditions: the fifth is that setup returned a non-null interface (line 154). The first name read stores the name; the second is the argument of the `NetworkObserver` constructor. `Collaborators` has one field per call. If the second read throws, `unregisterObserver` runs while no observer has been assigned, so it does nothing.
- Entering Idle does not drop the interface handle, and entering Started does not reset `mIfaceIsUp`:
  - `mClientInterface` is cleared only at the next `CMD_START` (line 146);
  - `mIfaceIsUp` carries over from an earlier session (lines 95, 205-208).

  `StopUnregistersOnce` and `StartSucceedsIff` state both facts.
- A null name is not an error in the source. If the second read returns null, registration still succeeds and the machine enters Started (line 175). But the observer's `mIfaceName` is null, so every link report throws `NullPointerException` at line 106 before anything is queued. The model's observer then forwards nothing, and `NullNameObserverIsDeaf` states the consequence: a link-down is never acted on.
- Android's `transitionTo` is applied after `processMessage` returns. Both calls (lines 175 and 218) are the last statement of their handler, so running exit and enter at once is equivalent.

## Model

| member | source | states |
|---|---|---|
| `ScanOnlyModel.IncrementMetricsForSetupFailure` | service/java/com/android/server/wifi/ScanOnlyModeManager.java:76-82 | A HAL failure bumps only the HAL counter, a wificond failure only the wificond counter, any other status neither |
| `ScanOnlyModel.UnregisterObserver` | service/java/com/android/server/wifi/ScanOnlyModeManager.java:114-122 | Afterwards no observer is current; the service is called with the current observer if there was one and not at all otherwise; nothing else changes |
| `ScanOnlyModel.TransitionTo` | service/java/com/android/server/wifi/ScanOnlyModeManager.java:137-140 | The machine ends in the destination state; arriving in Idle leaves no observer; queue, link state, interface, name, metrics and registrations are untouched, and unregister calls are only added |
| `ScanOnlyModel.StartInIdle` | service/java/com/android/server/wifi/ScanOnlyModeManager.java:145-176 | Handling CMD_START in Idle never touches the queue or the link state, and the register and unregister logs only grow |
| `ScanOnlyModel.OnUpChanged` | service/java/com/android/server/wifi/ScanOnlyModeManager.java:191-203 | Never changes the state or the observer; the link state becomes the reported one; exactly one CMD_STOP is appended when the link goes from up to down, nothing otherwise |
| `ScanOnlyModel.Step` | service/java/com/android/server/wifi/ScanOnlyModeManager.java:201 | Processing a message removes it from the queue; the only message ever added is one CMD_STOP, and only while a link-down status message is processed; the register and unregister logs only grow |
| `ScanOnlyModel.Initial` | service/java/com/android/server/wifi/ScanOnlyModeManager.java:124-132 | The machine built and started by the constructor is Idle with an empty queue, no observer and the link down, and satisfies the invariant |
| `ScanOnlyModel.EnterState` | service/java/com/android/server/wifi/ScanOnlyModeManager.java:137-140 | Entering Idle leaves no observer current; entering Started (lines 206-208) changes nothing; the state itself is never changed |
| `ScanOnlyModel.ExitState` | service/java/com/android/server/wifi/ScanOnlyModeManager.java:239-243 | Leaving Started leaves no observer current; leaving Idle changes nothing; the state itself is never changed |
| `ScanOnlyModel.IdleProcessMessage` | service/java/com/android/server/wifi/ScanOnlyModeManager.java:143-186 | Idle handles exactly CMD_START and CMD_STOP; every other message is reported unhandled and, like CMD_STOP, changes nothing; no message touches the queue (the outcomes of CMD_START are the lemmas StartSucceedsIff, SetupFailureStaysIdle, NameFailureRegistersNothing, RegistrationFailureUnregisters) |
| `ScanOnlyModel.StartedProcessMessage` | service/java/com/android/server/wifi/ScanOnlyModeManager.java:211-232 | Started handles every message except binder death; only CMD_STOP leaves Started, for Idle; apart from it only a status message from the current observer changes anything (StaleStatusIgnored, CurrentStatusHandled) |
| `ScanOnlyModel.ProcessMessage` | service/java/com/android/server/wifi/ScanOnlyModeManager.java:143-232 | An unhandled message changes nothing; processing a message never touches the queue except that a link-down status message may append one CMD_STOP |
| `ScanOnlyModel.LinkStateChanged` | service/java/com/android/server/wifi/ScanOnlyModeManager.java:104-111 | A link report changes nothing but the queue, and appends at most one status message, carrying the reported link state and the observer's own identity; an observer with a null name queues nothing |
| `ScanOnlyModel.NameValue` | service/java/com/android/server/wifi/ScanOnlyModeManager.java:159 | A name read that did not throw stores a string exactly when it returned one, and that string; a null reply stores null |
| `ScanOnlyProperties.InitialSatisfiesInv` | service/java/com/android/server/wifi/ScanOnlyModeManager.java:94-95 | The freshly built machine is Idle, has no observer, link down, and satisfies the invariant |
| `ScanOnlyProperties.RegisteredGenerationBelow` | service/java/com/android/server/wifi/ScanOnlyModeManager.java:166-168 | Every observer ever registered has a generation below the next one to be handed out, equal to its position in the registration log |
| `ScanOnlyProperties.UnregisterKeepsInv` | service/java/com/android/server/wifi/ScanOnlyModeManager.java:114-122 | Unregistering the observer and going Idle keeps the invariant: no observer is unregistered twice and none is left registered |
| `ScanOnlyProperties.AtMostOneLiveObserver` | service/java/com/android/server/wifi/ScanOnlyModeManager.java:166-170 | In every reachable machine at most one observer is registered and not yet unregistered, and it is the current one |
| `ScanOnlyProperties.StartInIdleKeepsInv` | service/java/com/android/server/wifi/ScanOnlyModeManager.java:145-176 | Every outcome of CMD_START in Idle keeps the invariant: Started exactly when an observer is current, the new observer fresh and never unregistered before |
| `ScanOnlyProperties.ProcessMessageKeepsInv` | service/java/com/android/server/wifi/ScanOnlyModeManager.java:143-232 | Every message in every state keeps the invariant; in particular Started always has a current observer |
| `ScanOnlyProperties.StepKeepsInv` | service/java/com/android/server/wifi/ScanOnlyModeManager.java:143-232 | One turn of the looper keeps the invariant |
| `ScanOnlyProperties.EnqueueKeepsInv` | service/java/com/android/server/wifi/ScanOnlyModeManager.java:59-68 | Queueing messages (start, stop, observer callbacks) keeps the invariant |
| `ScanOnlyProperties.SetupFailureStaysIdle` | service/java/com/android/server/wifi/ScanOnlyModeManager.java:145-157 | A failed setup, or a successful one that returned no interface, leaves the machine Idle with no observer and no handle; nothing is registered or unregistered; only the metrics change, as the failure reason selects |
| `ScanOnlyProperties.StartSucceedsIff` | service/java/com/android/server/wifi/ScanOnlyModeManager.java:145-176 | CMD_START in Idle ends Started if and only if setup succeeded, an interface came back, both name reads and the registration did not throw; otherwise Idle; the link state carries over |
| `ScanOnlyProperties.StartSuccessRegistersFreshObserver` | service/java/com/android/server/wifi/ScanOnlyModeManager.java:158-176 | A successful start registers exactly one new observer, for the interface name it read, with a generation no earlier observer has, and keeps the interface and its name |
| `ScanOnlyProperties.RegistrationFailureUnregisters` | service/java/com/android/server/wifi/ScanOnlyModeManager.java:165-173 | When registerObserver throws, the half-created observer is unregistered once and dropped, and the machine stays Idle |
| `ScanOnlyProperties.NameFailureRegistersNothing` | service/java/com/android/server/wifi/ScanOnlyModeManager.java:158-167 | When a name read throws, the machine stays Idle, no observer is registered or unregistered, the handle is kept and the stored name changes only if the first read succeeded |
| `ScanOnlyProperties.StartWhileStartedIgnored` | service/java/com/android/server/wifi/ScanOnlyModeManager.java:213-215 | CMD_START in Started is handled and changes nothing at all |
| `ScanOnlyProperties.StopWhileIdleIgnored` | service/java/com/android/server/wifi/ScanOnlyModeManager.java:177-180 | CMD_STOP in Idle is handled and changes nothing at all |
| `ScanOnlyProperties.UnhandledCommands` | service/java/com/android/server/wifi/ScanOnlyModeManager.java:181-183 | CMD_CLIENT_INTERFACE_BINDER_DEATH in either state, and a status message in Idle, are NOT_HANDLED and change nothing |
| `ScanOnlyProperties.StaleStatusIgnored` | service/java/com/android/server/wifi/ScanOnlyModeManager.java:220-224 | A status message from any observer but the current one changes nothing, whatever its up/down value |
| `ScanOnlyProperties.CurrentStatusHandled` | service/java/com/android/server/wifi/ScanOnlyModeManager.java:220-227 | A status message from the current observer in Started is passed to onUpChanged with its up/down value |
| `ScanOnlyProperties.RepeatedUpIsNoop` | service/java/com/android/server/wifi/ScanOnlyModeManager.java:191-197 | After one "up" report from the current observer the link is up; a second identical report changes nothing |
| `ScanOnlyProperties.StopUnregistersOnce` | service/java/com/android/server/wifi/ScanOnlyModeManager.java:216-219 | CMD_STOP in Started goes to Idle and unregisters the observer exactly once; interface handle, name and link state are kept |
| `ScanOnlyProperties.UnregisterIdempotent` | service/java/com/android/server/wifi/ScanOnlyModeManager.java:114-122 | Calling unregisterObserver twice is the same as calling it once |
| `ScanOnlyProperties.RestartMakesOldObserversStale` | service/java/com/android/server/wifi/ScanOnlyModeManager.java:166-168 | After a successful restart, status messages from every earlier observer are ignored and those from the new observer reach onUpChanged |
| `ScanOnlyProperties.NonStopCountAppendStop` | service/java/com/android/server/wifi/ScanOnlyModeManager.java:201 | Appending a CMD_STOP does not change the number of other queued messages, which makes the looper's drain terminate |
| `ScanOnlyProperties.Drain` | service/java/com/android/server/wifi/ScanOnlyModeManager.java:143-232 | Running the looper until the queue is empty, for any answers of the collaborators, ends with an empty queue, and the register and unregister logs only grow |
| `ScanOnlyProperties.DrainEndsIdle` | service/java/com/android/server/wifi/ScanOnlyModeManager.java:216-219 | Whatever the queue holds and however the collaborators answer, a queue ending in CMD_STOP drains into Idle with an empty queue and no observer; every observer registered before has by then been unregistered, none twice |
| `ScanOnlyProperties.LinkDownLeadsToIdle` | service/java/com/android/server/wifi/ScanOnlyModeManager.java:199-202 | A link-down report from the current observer keeps the machine Started, marks the link down and appends one CMD_STOP; draining then reaches Idle, with that observer unregistered exactly once whatever else was queued |
| `ScanOnlyProperties.LinkDownUnregistersOnce` | service/java/com/android/server/wifi/ScanOnlyModeManager.java:191-203 | With nothing else queued, the link-down report leads in two messages to Idle with an empty queue, and the observer is unregistered exactly once |
| `ScanOnlyProperties.ObserverFiltersByInterfaceName` | service/java/com/android/server/wifi/ScanOnlyModeManager.java:104-111 | The observer queues a status message carrying its own identity exactly when the reported interface is its own (non-null) name; otherwise nothing changes |
| `ScanOnlyProperties.NullNameObserverIsDeaf` | service/java/com/android/server/wifi/ScanOnlyModeManager.java:104-111 | When the second name read returns null, CMD_START still ends Started, but the observer's callback never queues anything, so a link-down is never acted on |
| `Manager.ScanOnlyModeManager.constructor` | service/java/com/android/server/wifi/ScanOnlyModeManager.java:124-132 | The new manager is Idle with an empty queue, no observer, no interface, zero counters, and satisfies the invariant |
| `Manager.ScanOnlyModeManager.Start` | service/java/com/android/server/wifi/ScanOnlyModeManager.java:59-61 | start() only appends CMD_START to the queue |
| `Manager.ScanOnlyModeManager.Stop` | service/java/com/android/server/wifi/ScanOnlyModeManager.java:66-68 | stop() only appends CMD_STOP to the queue |
| `Manager.ScanOnlyModeManager.InterfaceLinkStateChanged` | service/java/com/android/server/wifi/ScanOnlyModeManager.java:104-111 | The observer callback changes the fields as LinkStateChanged says: one queued status message when the name matches, nothing otherwise |
| `Manager.ScanOnlyModeManager.UnregisterObserver` | service/java/com/android/server/wifi/ScanOnlyModeManager.java:114-122 | Updates the fields in place exactly as the function UnregisterObserver says |
| `Manager.ScanOnlyModeManager.Enter` | service/java/com/android/server/wifi/ScanOnlyModeManager.java:137-140 | Entering Idle unregisters the observer; entering Started changes nothing |
| `Manager.ScanOnlyModeManager.Exit` | service/java/com/android/server/wifi/ScanOnlyModeManager.java:239-243 | Leaving Started unregisters the observer; leaving Idle changes nothing |
| `Manager.ScanOnlyModeManager.TransitionTo` | service/java/com/android/server/wifi/ScanOnlyModeManager.java:175 | Runs exit then enter around the state change, as the function TransitionTo says |
| `Manager.ScanOnlyModeManager.IdleProcessMessage` | service/java/com/android/server/wifi/ScanOnlyModeManager.java:143-186 | Updates the fields and returns HANDLED/NOT_HANDLED exactly as Idle's transition function says |
| `Manager.ScanOnlyModeManager.OnUpChanged` | service/java/com/android/server/wifi/ScanOnlyModeManager.java:191-203 | Updates the link state and the queue in place exactly as the function OnUpChanged says |
| `Manager.ScanOnlyModeManager.StartedProcessMessage` | service/java/com/android/server/wifi/ScanOnlyModeManager.java:211-232 | Updates the fields and returns HANDLED/NOT_HANDLED exactly as Started's transition function says |
| `Manager.ScanOnlyModeManager.HandleMessage` | service/java/com/android/server/wifi/ScanOnlyModeManager.java:143-232 | Takes the oldest message off the queue, processes it in the current state as Step says, and keeps the invariant |

## Left out

- The Android `StateMachine`, `Looper` and `Message` machinery is not modelled. This covers hierarchical dispatch, handler threads, deferred `transitionTo` and `unhandledMessage` logging. The queue is a `seq<Command>`, and `HandleMessage` is one looper turn.
- Running the looper to the end is not a method. Each call of `HandleMessage` processes one message, and the ghost function `Drain` specifies a full run.
- Observer callbacks arrive on another thread in the source. Here they are plain method calls that append to the queue.
- `WifiNative`, `IClientInterface`, `INetworkManagementService` and `RemoteException` are not part of this model. Their answers enter as a `Collaborators` value.
- A `RemoteException` from `unregisterObserver` is swallowed by the source, so it is not an input. The call is logged either way.
- The requested interface name that `setupForClientMode` receives (line 148) is not modelled, because the setup outcome is an input.
- The numeric values of the `WifiNative` setup codes are not part of this model. Statuses other than success, HAL failure and wificond failure are `SetupFailureOther`.
- `WifiMetrics` is modelled only as its two setup-failure counters.
- Logging and the TODO broadcasts (lines 171, 198, 240) have no behaviour in this code and are not modelled.
- The `NullPointerException` that an observer with a null name throws back to its caller is not modelled; only its effect is, which is that nothing is queued.
- Observer identity is a generation number, not a Java reference. A caller of `InterfaceLinkStateChanged` names the observer by value.
- `CMD_CLIENT_INTERFACE_BINDER_DEATH` has no transition in the source, and none is added here.
