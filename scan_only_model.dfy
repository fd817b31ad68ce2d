/**
 * The scan-only Wi-Fi mode state machine as values: the machine's fields, the
 * commands on its queue, the answers of its remote collaborators, and one
 * function per handler of the state machine. The class in
 * scan_only_mode_manager.dfy is proved to change its fields exactly as these
 * functions say.
 */
module ScanOnlyModel {

  datatype Option<T> = None | Some(value: T)

  /** Status returned by WifiNative.setupForClientMode. */
  datatype SetupStatus =
    | SetupSuccess
    | SetupFailureHal
    | SetupFailureWificond
    | SetupFailureOther(code: int)

  /** An opaque IClientInterface handle. */
  datatype ClientInterface = ClientInterface(id: nat)

  /** The pair (status, interface) that setupForClientMode returns; the interface may be null. */
  datatype SetupResult = SetupResult(status: SetupStatus, iface: Option<ClientInterface>)

  /**
   * One NetworkObserver object. Its identity (the reference the state machine
   * compares) is its generation: the number of observers created before it.
   * Its interface name is `None` when getInterfaceName returned null.
   */
  datatype Observer = Observer(generation: nat, ifaceName: Option<string>)

  /** The messages of the state machine; a status change carries its sender's identity. */
  datatype Command =
    | CmdStart
    | CmdStop
    | CmdClientInterfaceBinderDeath
    | CmdInterfaceStatusChanged(isUp: bool, sender: nat)

  datatype State = Idle | Started

  /** The two WifiMetrics counters this component increments. */
  datatype Metrics = Metrics(numWifiOnFailureDueToHal: nat, numWifiOnFailureDueToWificond: nat)

  /** One answer of IClientInterface.getInterfaceName: RemoteException, null, or a name. */
  datatype NameReply = NameThrew | NameNull | NameIs(name: string)

  /** The string a reply that did not throw stores; null is `None`. */
  function NameValue(reply: NameReply): (r: Option<string>)
    requires !reply.NameThrew?
    ensures r.Some? <==> reply.NameIs?
    ensures reply.NameIs? ==> r.value == reply.name
  {
    if reply.NameIs? then Some(reply.name) else None
  }

  /**
   * What the remote collaborators answer while CMD_START is handled in Idle.
   * The source asks for the name twice: once to store it, once more as the
   * argument of the NetworkObserver constructor.
   */
  datatype Collaborators = Collaborators(
    setup: SetupResult,
    interfaceName: NameReply,
    observerIfaceName: NameReply,
    registerSucceeds: bool)

  /**
   * Every field of the state machine and its manager, plus the calls made to
   * INetworkManagementService: `registered` lists the observers passed to
   * registerObserver, `unregistered` those passed to unregisterObserver.
   */
  datatype Machine = Machine(
    state: State,
    queue: seq<Command>,
    observer: Option<Observer>,
    ifaceIsUp: bool,
    clientInterface: Option<ClientInterface>,
    clientInterfaceName: Option<string>,
    nextGeneration: nat,
    metrics: Metrics,
    registered: seq<Observer>,
    unregistered: seq<Observer>)

  /** The outcome of processMessage: the new machine and HANDLED (true) or NOT_HANDLED (false). */
  datatype Processed = Processed(machine: Machine, handled: bool)

  /** The machine right after construction, once Idle has been entered. */
  function Initial(): (r: Machine)
    ensures Inv(r)
    ensures r.state == Idle && r.observer.None? && r.queue == [] && !r.ifaceIsUp
  {
    Machine(Idle, [], None, false, None, None, 0, Metrics(0, 0), [], [])
  }

  predicate NoRepeats<T(==)>(s: seq<T>)
  {
    forall i, j :: 0 <= i < j < |s| ==> s[i] != s[j]
  }

  /**
   * The invariant of every reachable machine: it is Started exactly when an
   * observer is current; observers are numbered in creation order; only
   * observers that were registered are ever unregistered, none twice, the
   * current one not yet, and every other registered one already.
   */
  ghost predicate Inv(m: Machine)
  {
    && (m.state == Started <==> m.observer.Some?)
    && m.nextGeneration == |m.registered|
    && (forall i :: 0 <= i < |m.registered| ==> m.registered[i].generation == i)
    && (forall o :: o in m.unregistered ==> o in m.registered)
    && NoRepeats(m.unregistered)
    && (m.observer.Some? ==> m.observer.value in m.registered && m.observer.value !in m.unregistered)
    // no registration leaks: the only observer still registered is the current one
    && (forall o :: o in m.registered && o !in m.unregistered ==> m.observer == Some(o))
  }

  /** incrementMetricsForSetupFailure: one counter per known failure reason. */
  function IncrementMetricsForSetupFailure(metrics: Metrics, failureReason: SetupStatus): (r: Metrics)
    ensures failureReason == SetupFailureHal ==>
      r == metrics.(numWifiOnFailureDueToHal := metrics.numWifiOnFailureDueToHal + 1)
    ensures failureReason == SetupFailureWificond ==>
      r == metrics.(numWifiOnFailureDueToWificond := metrics.numWifiOnFailureDueToWificond + 1)
    ensures failureReason != SetupFailureHal && failureReason != SetupFailureWificond ==> r == metrics
  {
    if failureReason == SetupFailureHal then
      metrics.(numWifiOnFailureDueToHal := metrics.numWifiOnFailureDueToHal + 1)
    else if failureReason == SetupFailureWificond then
      metrics.(numWifiOnFailureDueToWificond := metrics.numWifiOnFailureDueToWificond + 1)
    else
      metrics
  }

  /** unregisterObserver: a no-op without an observer; otherwise one call to the service, then null. */
  function UnregisterObserver(m: Machine): (r: Machine)
    ensures r.observer.None?
    ensures r.unregistered == m.unregistered + (if m.observer.Some? then [m.observer.value] else [])
    ensures r.(observer := m.observer, unregistered := m.unregistered) == m
  {
    if m.observer.None? then m
    else m.(unregistered := m.unregistered + [m.observer.value], observer := None)
  }

  /** enter() of the machine's current state: Idle unregisters the observer, Started only logs. */
  function EnterState(m: Machine): (r: Machine)
    ensures r.state == m.state
    ensures m.state == Idle ==> r.observer.None?
    ensures m.state == Started ==> r == m
  {
    if m.state == Idle then UnregisterObserver(m) else m
  }

  /** exit() of the machine's current state: Started unregisters the observer, Idle has none. */
  function ExitState(m: Machine): (r: Machine)
    ensures r.state == m.state
    ensures m.state == Started ==> r.observer.None?
    ensures m.state == Idle ==> r == m
  {
    if m.state == Started then UnregisterObserver(m) else m
  }

  /** transitionTo: leave the current state, then enter `dest`. */
  function TransitionTo(m: Machine, dest: State): (r: Machine)
    ensures r.state == dest
    ensures dest == Idle ==> r.observer.None?
    ensures r.queue == m.queue && r.ifaceIsUp == m.ifaceIsUp && r.metrics == m.metrics
    ensures r.clientInterface == m.clientInterface && r.clientInterfaceName == m.clientInterfaceName
    ensures r.registered == m.registered && r.nextGeneration == m.nextGeneration
    ensures m.unregistered <= r.unregistered
  {
    EnterState(ExitState(m).(state := dest))
  }

  /**
   * All five conditions of CMD_START in Idle hold: four remote calls do not
   * throw or fail, and setup returns a non-null interface.
   */
  predicate AllStepsSucceed(env: Collaborators)
  {
    && env.setup.status == SetupSuccess
    && env.setup.iface.Some?
    && !env.interfaceName.NameThrew?
    && !env.observerIfaceName.NameThrew?
    && env.registerSucceeds
  }

  /** IdleState.processMessage for CMD_START: set up, read the name, create and register an observer. */
  function StartInIdle(m: Machine, env: Collaborators): (r: Machine)
    ensures r.queue == m.queue && r.ifaceIsUp == m.ifaceIsUp
    ensures m.registered <= r.registered && m.unregistered <= r.unregistered
  {
    var cleared := m.(clientInterface := None);
    var afterSetup :=
      if env.setup.status == SetupSuccess then cleared.(clientInterface := env.setup.iface)
      else cleared.(metrics := IncrementMetricsForSetupFailure(cleared.metrics, env.setup.status));
    if afterSetup.clientInterface.None? then afterSetup
    else if env.interfaceName.NameThrew? then afterSetup
    else
      var named := afterSetup.(clientInterfaceName := NameValue(env.interfaceName));
      if env.observerIfaceName.NameThrew? then
        // getInterfaceName threw before the new observer was assigned
        UnregisterObserver(named)
      else
        var observer := Observer(named.nextGeneration, NameValue(env.observerIfaceName));
        var attempted := named.(observer := Some(observer),
                                nextGeneration := named.nextGeneration + 1,
                                registered := named.registered + [observer]);
        if !env.registerSucceeds then UnregisterObserver(attempted)
        else TransitionTo(attempted, Started)
  }

  /** IdleState.processMessage: only CMD_START and CMD_STOP are handled, and only CMD_START changes anything. */
  function IdleProcessMessage(m: Machine, cmd: Command, env: Collaborators): (r: Processed)
    ensures r.handled <==> cmd == CmdStart || cmd == CmdStop
    ensures cmd != CmdStart ==> r.machine == m
    ensures r.machine.queue == m.queue
  {
    match cmd
    case CmdStart => Processed(StartInIdle(m, env), true)
    case CmdStop => Processed(m, true)
    case _ => Processed(m, false)
  }

  /** The status message came from the current observer. */
  predicate IsCurrentObserver(m: Machine, sender: nat)
  {
    m.observer.Some? && m.observer.value.generation == sender
  }

  /**
   * StartedState.onUpChanged: it records a new link state and, when the link
   * went down, asks the machine to stop; it never changes the state itself.
   */
  function OnUpChanged(m: Machine, isUp: bool): (r: Machine)
    ensures r.state == m.state && r.observer == m.observer
    ensures r.ifaceIsUp == isUp
    ensures r.queue == if m.ifaceIsUp && !isUp then m.queue + [CmdStop] else m.queue
    ensures r.(ifaceIsUp := m.ifaceIsUp, queue := m.queue) == m
  {
    if isUp == m.ifaceIsUp then m
    else if isUp then m.(ifaceIsUp := true)
    else m.(ifaceIsUp := false, queue := m.queue + [CmdStop])
  }

  /**
   * StartedState.processMessage: everything but binder death is handled;
   * only CMD_STOP leaves the state, and besides it only a status message from
   * the current observer changes anything.
   */
  function StartedProcessMessage(m: Machine, cmd: Command): (r: Processed)
    ensures r.handled <==> cmd != CmdClientInterfaceBinderDeath
    ensures r.machine.state == if cmd == CmdStop then Idle else m.state
    ensures cmd != CmdStop && !(cmd.CmdInterfaceStatusChanged? && IsCurrentObserver(m, cmd.sender))
            ==> r.machine == m
  {
    match cmd
    case CmdStart => Processed(m, true)
    case CmdStop => Processed(TransitionTo(m, Idle), true)
    case CmdInterfaceStatusChanged(isUp, sender) =>
      if !IsCurrentObserver(m, sender) then Processed(m, true)
      else Processed(OnUpChanged(m, isUp), true)
    case CmdClientInterfaceBinderDeath => Processed(m, false)
  }

  /** processMessage of the current state (the message has already left the queue). */
  function ProcessMessage(m: Machine, cmd: Command, env: Collaborators): (r: Processed)
    ensures !r.handled ==> r.machine == m
    ensures || r.machine.queue == m.queue
            || (cmd.CmdInterfaceStatusChanged? && !cmd.isUp && r.machine.queue == m.queue + [CmdStop])
  {
    if m.state == Idle then IdleProcessMessage(m, cmd, env) else StartedProcessMessage(m, cmd)
  }

  /**
   * One turn of the looper: take the head of the queue and process it. Only a
   * status message can add to the queue, and then only one CMD_STOP.
   */
  function Step(m: Machine, env: Collaborators): (r: Processed)
    requires m.queue != []
    ensures || r.machine.queue == m.queue[1..]
            || (m.queue[0].CmdInterfaceStatusChanged? && !m.queue[0].isUp
                && r.machine.queue == m.queue[1..] + [CmdStop])
    ensures m.registered <= r.machine.registered && m.unregistered <= r.machine.unregistered
  {
    ProcessMessage(m.(queue := m.queue[1..]), m.queue[0], env)
  }

  /**
   * NetworkObserver.interfaceLinkStateChanged: forward only reports about the
   * observer's own interface. An observer built with a null name throws
   * NullPointerException on every report and forwards nothing.
   */
  function LinkStateChanged(m: Machine, observer: Observer, iface: string, up: bool): (r: Machine)
    ensures r.(queue := m.queue) == m
    ensures r.queue == m.queue || r.queue == m.queue + [CmdInterfaceStatusChanged(up, observer.generation)]
    ensures observer.ifaceName.None? ==> r == m
  {
    if observer.ifaceName == Some(iface) then
      m.(queue := m.queue + [CmdInterfaceStatusChanged(up, observer.generation)])
    else m
  }
}
