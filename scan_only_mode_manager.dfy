/**
 * ScanOnlyModeManager and its state machine as one object whose methods
 * update its fields in place. Every method is proved to change the fields
 * exactly as the matching function of ScanOnlyModel says, so the lemmas of
 * ScanOnlyProperties hold of the object.
 */
module Manager {
  import opened ScanOnlyModel
  import ScanOnlyProperties

  class ScanOnlyModeManager {
    // state machine fields
    var state: State
    var queue: seq<Command>
    var networkObserver: Option<Observer>
    var ifaceIsUp: bool
    var nextGeneration: nat
    // manager fields
    var clientInterface: Option<ClientInterface>
    var clientInterfaceName: Option<string>
    var metrics: Metrics
    // calls made to INetworkManagementService
    ghost var registered: seq<Observer>
    ghost var unregistered: seq<Observer>

    ghost function Snapshot(): Machine
      reads this
    {
      Machine(state, queue, networkObserver, ifaceIsUp, clientInterface, clientInterfaceName,
              nextGeneration, metrics, registered, unregistered)
    }

    ghost predicate Valid()
      reads this
    {
      Inv(Snapshot())
    }

    /** Construction starts the state machine, which enters Idle. */
    constructor ()
      ensures Valid() && Snapshot() == Initial()
    {
      state := Idle;
      queue := [];
      networkObserver := None;
      ifaceIsUp := false;
      nextGeneration := 0;
      clientInterface := None;
      clientInterfaceName := None;
      metrics := Metrics(0, 0);
      registered := [];
      unregistered := [];
      new;
      Enter();
      ScanOnlyProperties.InitialSatisfiesInv();
    }

    /** start(): queue CMD_START. */
    method Start()
      requires Valid()
      modifies this
      ensures Valid() && Snapshot() == old(Snapshot()).(queue := old(queue) + [CmdStart])
    {
      queue := queue + [CmdStart];
    }

    /** stop(): queue CMD_STOP. */
    method Stop()
      requires Valid()
      modifies this
      ensures Valid() && Snapshot() == old(Snapshot()).(queue := old(queue) + [CmdStop])
    {
      queue := queue + [CmdStop];
    }

    /** NetworkObserver.interfaceLinkStateChanged, called by the service for `observer`. */
    method InterfaceLinkStateChanged(observer: Observer, iface: string, up: bool)
      requires Valid()
      modifies this
      ensures Valid() && Snapshot() == LinkStateChanged(old(Snapshot()), observer, iface, up)
    {
      // an observer built with a null name throws NullPointerException here and queues nothing
      if observer.ifaceName == Some(iface) {
        queue := queue + [CmdInterfaceStatusChanged(up, observer.generation)];
      }
    }

    method UnregisterObserver()
      modifies this
      ensures Snapshot() == ScanOnlyModel.UnregisterObserver(old(Snapshot()))
    {
      if networkObserver.None? {
        return;
      }
      // a RemoteException from the service is swallowed; the call was made either way
      unregistered := unregistered + [networkObserver.value];
      networkObserver := None;
    }

    /** enter() of the current state. */
    method Enter()
      modifies this
      ensures Snapshot() == EnterState(old(Snapshot()))
    {
      if state == Idle {
        UnregisterObserver();
      }
    }

    /** exit() of the current state. */
    method Exit()
      modifies this
      ensures Snapshot() == ExitState(old(Snapshot()))
    {
      if state == Started {
        UnregisterObserver();
      }
    }

    method TransitionTo(dest: State)
      modifies this
      ensures Snapshot() == ScanOnlyModel.TransitionTo(old(Snapshot()), dest)
    {
      Exit();
      state := dest;
      Enter();
    }

    /** IdleState.processMessage. */
    method IdleProcessMessage(cmd: Command, env: Collaborators) returns (handled: bool)
      requires state == Idle
      modifies this
      ensures Processed(Snapshot(), handled) == ScanOnlyModel.IdleProcessMessage(old(Snapshot()), cmd, env)
    {
      match cmd
      case CmdStart =>
        handled := true;
        clientInterface := None;
        if env.setup.status == SetupSuccess {
          clientInterface := env.setup.iface;
        } else {
          metrics := IncrementMetricsForSetupFailure(metrics, env.setup.status);
        }
        if clientInterface.None? {
          return;
        }
        if env.interfaceName.NameThrew? {
          return;
        }
        clientInterfaceName := NameValue(env.interfaceName);
        if env.observerIfaceName.NameThrew? {
          UnregisterObserver();
          return;
        }
        var observer := Observer(nextGeneration, NameValue(env.observerIfaceName));
        networkObserver := Some(observer);
        nextGeneration := nextGeneration + 1;
        registered := registered + [observer];
        if !env.registerSucceeds {
          UnregisterObserver();
          return;
        }
        TransitionTo(Started);
      case CmdStop =>
        handled := true;
      case _ =>
        handled := false;
    }

    /** StartedState.onUpChanged. */
    method OnUpChanged(isUp: bool)
      modifies this
      ensures Snapshot() == ScanOnlyModel.OnUpChanged(old(Snapshot()), isUp)
    {
      if isUp == ifaceIsUp {
        return;
      }
      ifaceIsUp := isUp;
      if !isUp {
        queue := queue + [CmdStop];
      }
    }

    /** StartedState.processMessage. */
    method StartedProcessMessage(cmd: Command) returns (handled: bool)
      requires state == Started
      modifies this
      ensures Processed(Snapshot(), handled) == ScanOnlyModel.StartedProcessMessage(old(Snapshot()), cmd)
    {
      handled := true;
      match cmd
      case CmdStart =>
      case CmdStop =>
        TransitionTo(Idle);
      case CmdInterfaceStatusChanged(isUp, sender) =>
        if networkObserver.None? || networkObserver.value.generation != sender {
          return;
        }
        OnUpChanged(isUp);
      case CmdClientInterfaceBinderDeath =>
        handled := false;
    }

    /**
     * One turn of the looper: take the oldest message off the queue and let
     * the current state process it.
     */
    method HandleMessage(env: Collaborators) returns (handled: bool)
      requires Valid() && queue != []
      modifies this
      ensures Valid()
      ensures Processed(Snapshot(), handled) == Step(old(Snapshot()), env)
    {
      ScanOnlyProperties.StepKeepsInv(Snapshot(), env);
      var cmd := queue[0];
      queue := queue[1..];
      if state == Idle {
        handled := IdleProcessMessage(cmd, env);
      } else {
        handled := StartedProcessMessage(cmd);
      }
    }
  }
}
