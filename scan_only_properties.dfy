/**
 * What the scan-only state machine guarantees, stated over the functions of
 * ScanOnlyModel: the invariant every transition keeps, the outcome of each
 * (state, command) pair, and where a link-down report leads once the queue
 * has been drained.
 */
module ScanOnlyProperties {
  import opened ScanOnlyModel

  // ---------------------------------------------------------------------
  // The invariant
  // ---------------------------------------------------------------------

  lemma InitialSatisfiesInv()
    ensures Inv(Initial())
    ensures Initial().state == Idle && Initial().observer.None? && !Initial().ifaceIsUp
  {
  }

  /** An observer taken from the registration log has the generation of its position. */
  lemma RegisteredGenerationBelow(m: Machine, o: Observer)
    requires Inv(m) && o in m.registered
    ensures o.generation < m.nextGeneration
    ensures m.registered[o.generation] == o
  {
    var i :| 0 <= i < |m.registered| && m.registered[i] == o;
  }

  /** Unregistering the current observer and going Idle keeps the invariant. */
  lemma UnregisterKeepsInv(m: Machine)
    requires Inv(m)
    ensures Inv(UnregisterObserver(m).(state := Idle))
  {
    var r := UnregisterObserver(m).(state := Idle);
    if m.observer.Some? {
      forall i, j | 0 <= i < j < |r.unregistered| ensures r.unregistered[i] != r.unregistered[j] {
        if j == |r.unregistered| - 1 {
          assert r.unregistered[i] in m.unregistered;
        }
      }
    }
  }

  /** At most one observer is registered and not yet unregistered, and it is the current one. */
  lemma AtMostOneLiveObserver(m: Machine, o1: Observer, o2: Observer)
    requires Inv(m)
    requires o1 in m.registered && o1 !in m.unregistered
    requires o2 in m.registered && o2 !in m.unregistered
    ensures o1 == o2 && m.observer == Some(o1)
  {
  }

  lemma StartInIdleKeepsInv(m: Machine, env: Collaborators)
    requires Inv(m) && m.state == Idle
    ensures Inv(StartInIdle(m, env))
  {
    var cleared := m.(clientInterface := None);
    var afterSetup :=
      if env.setup.status == SetupSuccess then cleared.(clientInterface := env.setup.iface)
      else cleared.(metrics := IncrementMetricsForSetupFailure(cleared.metrics, env.setup.status));
    if afterSetup.clientInterface.Some? && !env.interfaceName.NameThrew? && !env.observerIfaceName.NameThrew? {
      var named := afterSetup.(clientInterfaceName := NameValue(env.interfaceName));
      var observer := Observer(named.nextGeneration, NameValue(env.observerIfaceName));
      var attempted := named.(observer := Some(observer),
                              nextGeneration := named.nextGeneration + 1,
                              registered := named.registered + [observer]);
      assert observer !in m.unregistered by {
        if observer in m.unregistered {
          RegisteredGenerationBelow(m, observer);
        }
      }
      assert forall o :: o in m.unregistered ==> o in attempted.registered;
      assert Inv(attempted.(state := Started));
      if !env.registerSucceeds {
        UnregisterKeepsInv(attempted.(state := Started));
      }
    }
  }

  /** Every message keeps the invariant. */
  lemma ProcessMessageKeepsInv(m: Machine, cmd: Command, env: Collaborators)
    requires Inv(m)
    ensures Inv(ProcessMessage(m, cmd, env).machine)
  {
    if m.state == Idle {
      if cmd == CmdStart {
        StartInIdleKeepsInv(m, env);
      }
    } else if cmd == CmdStop {
      UnregisterKeepsInv(m);
    }
  }

  lemma StepKeepsInv(m: Machine, env: Collaborators)
    requires Inv(m) && m.queue != []
    ensures Inv(Step(m, env).machine)
  {
    ProcessMessageKeepsInv(m.(queue := m.queue[1..]), m.queue[0], env);
  }

  /** Callers of start(), stop() and the observer only append to the queue, which the invariant ignores. */
  lemma EnqueueKeepsInv(m: Machine, q: seq<Command>)
    requires Inv(m)
    ensures Inv(m.(queue := q))
  {
  }

  // ---------------------------------------------------------------------
  // CMD_START in Idle
  // ---------------------------------------------------------------------

  /**
   * A failed setup, or a successful one that returned no interface, leaves
   * the machine Idle with no observer and no handle, registers nothing, and
   * bumps only the counter the status selects.
   */
  lemma SetupFailureStaysIdle(m: Machine, env: Collaborators)
    requires Inv(m) && m.state == Idle
    requires env.setup.status != SetupSuccess || env.setup.iface.None?
    ensures var p := ProcessMessage(m, CmdStart, env);
      && p.handled
      && p.machine == m.(clientInterface := None,
                         metrics := IncrementMetricsForSetupFailure(m.metrics, env.setup.status))
      && p.machine.state == Idle && p.machine.observer.None?
  {
  }

  /** CMD_START in Idle ends Started exactly when all five conditions hold; otherwise it stays Idle. */
  lemma StartSucceedsIff(m: Machine, env: Collaborators)
    requires Inv(m) && m.state == Idle
    ensures var r := ProcessMessage(m, CmdStart, env).machine;
      && (r.state == Started <==> AllStepsSucceed(env))
      && (r.state == Idle <==> !AllStepsSucceed(env))
      && r.queue == m.queue && r.ifaceIsUp == m.ifaceIsUp
  {
  }

  /** A successful CMD_START registers one fresh observer for the interface and keeps it current. */
  lemma StartSuccessRegistersFreshObserver(m: Machine, env: Collaborators)
    requires Inv(m) && m.state == Idle && AllStepsSucceed(env)
    ensures var r := ProcessMessage(m, CmdStart, env).machine;
      var observer := Observer(m.nextGeneration, NameValue(env.observerIfaceName));
      && r.observer == Some(observer)
      && r.registered == m.registered + [observer]
      && r.unregistered == m.unregistered
      && r.clientInterface == env.setup.iface
      && r.clientInterfaceName == NameValue(env.interfaceName)
      && r.metrics == m.metrics
      && (forall o :: o in m.registered ==> o.generation != observer.generation)
  {
    forall o | o in m.registered ensures o.generation != m.nextGeneration {
      RegisteredGenerationBelow(m, o);
    }
  }

  /** When registerObserver throws, the half-created observer is unregistered again and dropped. */
  lemma RegistrationFailureUnregisters(m: Machine, env: Collaborators)
    requires Inv(m) && m.state == Idle
    requires env.setup.status == SetupSuccess && env.setup.iface.Some?
    requires !env.interfaceName.NameThrew? && !env.observerIfaceName.NameThrew? && !env.registerSucceeds
    ensures var r := ProcessMessage(m, CmdStart, env).machine;
      var observer := Observer(m.nextGeneration, NameValue(env.observerIfaceName));
      && r.state == Idle && r.observer.None?
      && r.registered == m.registered + [observer]
      && r.unregistered == m.unregistered + [observer]
  {
  }

  /** When a name read throws (either time), no observer is registered or unregistered. */
  lemma NameFailureRegistersNothing(m: Machine, env: Collaborators)
    requires Inv(m) && m.state == Idle
    requires env.setup.status == SetupSuccess && env.setup.iface.Some?
    requires env.interfaceName.NameThrew? || env.observerIfaceName.NameThrew?
    ensures var r := ProcessMessage(m, CmdStart, env).machine;
      && r.state == Idle && r.observer.None?
      && r.registered == m.registered && r.unregistered == m.unregistered
      && r.clientInterface == env.setup.iface
      && r.clientInterfaceName
         == (if env.interfaceName.NameThrew? then m.clientInterfaceName else NameValue(env.interfaceName))
  {
  }

  // ---------------------------------------------------------------------
  // Commands that change nothing
  // ---------------------------------------------------------------------

  lemma StartWhileStartedIgnored(m: Machine, env: Collaborators)
    requires m.state == Started
    ensures ProcessMessage(m, CmdStart, env) == Processed(m, true)
  {
  }

  lemma StopWhileIdleIgnored(m: Machine, env: Collaborators)
    requires m.state == Idle
    ensures ProcessMessage(m, CmdStop, env) == Processed(m, true)
  {
  }

  /** CMD_CLIENT_INTERFACE_BINDER_DEATH, and a status message in Idle, are NOT_HANDLED and change nothing. */
  lemma UnhandledCommands(m: Machine, cmd: Command, env: Collaborators)
    requires cmd == CmdClientInterfaceBinderDeath || (cmd.CmdInterfaceStatusChanged? && m.state == Idle)
    ensures ProcessMessage(m, cmd, env) == Processed(m, false)
  {
  }

  /** A status message whose sender is not the current observer changes nothing, whatever it reports. */
  lemma StaleStatusIgnored(m: Machine, isUp: bool, sender: nat, env: Collaborators)
    requires !IsCurrentObserver(m, sender)
    ensures ProcessMessage(m, CmdInterfaceStatusChanged(isUp, sender), env) == Processed(m, m.state == Started)
  {
  }

  /** A status message from the current observer is handed to onUpChanged. */
  lemma CurrentStatusHandled(m: Machine, isUp: bool, env: Collaborators)
    requires Inv(m) && m.state == Started
    ensures var cmd := CmdInterfaceStatusChanged(isUp, m.observer.value.generation);
      ProcessMessage(m, cmd, env) == Processed(OnUpChanged(m, isUp), true)
  {
  }

  /** Two identical "up" reports from the current observer: the second one changes nothing. */
  lemma RepeatedUpIsNoop(m: Machine, env: Collaborators)
    requires Inv(m) && m.state == Started
    ensures var cmd := CmdInterfaceStatusChanged(true, m.observer.value.generation);
      var once := ProcessMessage(m, cmd, env).machine;
      && once.ifaceIsUp && once.state == Started && once.queue == m.queue
      && ProcessMessage(once, cmd, env) == Processed(once, true)
  {
  }

  // ---------------------------------------------------------------------
  // Stopping
  // ---------------------------------------------------------------------

  /**
   * CMD_STOP in Started goes to Idle and asks the service to unregister the
   * observer once: exit() does it, and enter() of Idle finds nothing left.
   * The client interface and the link state stay as they were.
   */
  lemma StopUnregistersOnce(m: Machine, env: Collaborators)
    requires Inv(m) && m.state == Started
    ensures ProcessMessage(m, CmdStop, env)
      == Processed(m.(state := Idle, observer := None,
                      unregistered := m.unregistered + [m.observer.value]), true)
    ensures Inv(ProcessMessage(m, CmdStop, env).machine)
  {
    UnregisterKeepsInv(m);
  }

  lemma UnregisterIdempotent(m: Machine)
    ensures UnregisterObserver(UnregisterObserver(m)) == UnregisterObserver(m)
  {
  }

  /**
   * After a stop and a successful restart, messages from every earlier
   * observer are ignored, and those from the new one are honoured.
   */
  lemma RestartMakesOldObserversStale(m: Machine, env: Collaborators, isUp: bool, o: Observer)
    requires Inv(m) && m.state == Idle && AllStepsSucceed(env) && o in m.registered
    ensures var r := ProcessMessage(m, CmdStart, env).machine;
      && ProcessMessage(r, CmdInterfaceStatusChanged(isUp, o.generation), env) == Processed(r, true)
      && ProcessMessage(r, CmdInterfaceStatusChanged(isUp, m.nextGeneration), env)
         == Processed(OnUpChanged(r, isUp), true)
  {
    RegisteredGenerationBelow(m, o);
  }

  // ---------------------------------------------------------------------
  // Draining the queue
  // ---------------------------------------------------------------------

  /** The number of queued messages other than CMD_STOP. */
  function NonStopCount(q: seq<Command>): nat
  {
    if q == [] then 0 else (if q[0] == CmdStop then 0 else 1) + NonStopCount(q[1..])
  }

  lemma {:induction false} NonStopCountAppendStop(q: seq<Command>)
    ensures NonStopCount(q + [CmdStop]) == NonStopCount(q)
  {
    if q != [] {
      assert (q + [CmdStop])[1..] == q[1..] + [CmdStop];
      NonStopCountAppendStop(q[1..]);
    }
  }

  /**
   * The looper running until the queue is empty; `oracle(k)` is what the
   * collaborators answer while the k-th message is processed. It stops
   * because each message either leaves the queue or is a non-stop message
   * replaced by a CMD_STOP.
   */
  ghost function Drain(m: Machine, oracle: nat -> Collaborators, k: nat): (r: Machine)
    ensures r.queue == []
    ensures m.registered <= r.registered && m.unregistered <= r.unregistered
    decreases NonStopCount(m.queue), |m.queue|
  {
    if m.queue == [] then m
    else
      NonStopCountAppendStop(m.queue[1..]);
      Drain(Step(m, oracle(k)).machine, oracle, k + 1)
  }

  /**
   * A queue that ends with CMD_STOP drains into Idle with no observer,
   * whatever it held before; by then every observer registered so far has
   * been passed to unregisterObserver, and none of them twice.
   */
  lemma {:induction false} DrainEndsIdle(m: Machine, oracle: nat -> Collaborators, k: nat)
    requires Inv(m) && m.queue != [] && m.queue[|m.queue| - 1] == CmdStop
    ensures var d := Drain(m, oracle, k);
      && d.state == Idle && d.observer.None? && d.queue == []
      && Inv(d) && NoRepeats(d.unregistered)
      && (forall o :: o in m.registered ==> o in d.unregistered)
    decreases NonStopCount(m.queue), |m.queue|
  {
    var next := Step(m, oracle(k)).machine;
    StepKeepsInv(m, oracle(k));
    NonStopCountAppendStop(m.queue[1..]);
    assert forall o :: o in m.registered ==> o in next.registered;
    if |m.queue| == 1 {
      assert m.queue[0] == CmdStop;
      assert next.queue == [] && next.state == Idle;
    } else {
      assert next.queue[|next.queue| - 1] == CmdStop;
      DrainEndsIdle(next, oracle, k + 1);
    }
  }

  /**
   * A link-down report from the current observer while the link is up does
   * not stop the machine itself: it queues one CMD_STOP, and draining the
   * queue then reaches Idle, with that observer passed to unregisterObserver
   * exactly once, whatever else was queued.
   */
  lemma LinkDownLeadsToIdle(m: Machine, oracle: nat -> Collaborators, k: nat)
    requires Inv(m) && m.state == Started && m.ifaceIsUp && m.queue != []
    requires m.queue[0] == CmdInterfaceStatusChanged(false, m.observer.value.generation)
    ensures var next := Step(m, oracle(k)).machine;
      && next.state == Started && !next.ifaceIsUp
      && next.queue == m.queue[1..] + [CmdStop]
    ensures var d := Drain(m, oracle, k);
      && d.state == Idle && d.observer.None?
      && m.observer.value in d.unregistered && NoRepeats(d.unregistered)
  {
    var next := Step(m, oracle(k)).machine;
    StepKeepsInv(m, oracle(k));
    DrainEndsIdle(next, oracle, k + 1);
  }

  /**
   * With nothing else queued, the link-down report takes the machine to Idle
   * in two messages and the observer is unregistered exactly once.
   */
  lemma LinkDownUnregistersOnce(m: Machine, oracle: nat -> Collaborators, k: nat)
    requires Inv(m) && m.state == Started && m.ifaceIsUp
    requires m.queue == [CmdInterfaceStatusChanged(false, m.observer.value.generation)]
    ensures var d := Drain(m, oracle, k);
      d == m.(state := Idle, observer := None, ifaceIsUp := false, queue := [],
              unregistered := m.unregistered + [m.observer.value])
  {
    var next := Step(m, oracle(k)).machine;
    assert next == m.(ifaceIsUp := false, queue := [CmdStop]);
    var last := Step(next, oracle(k + 1)).machine;
    assert last == m.(state := Idle, observer := None, ifaceIsUp := false, queue := [],
                      unregistered := m.unregistered + [m.observer.value]);
    assert Drain(next, oracle, k + 1) == Drain(last, oracle, k + 2);
  }

  /** Observers report only about their own interface, and only append to the queue. */
  lemma ObserverFiltersByInterfaceName(m: Machine, observer: Observer, iface: string, up: bool)
    ensures var r := LinkStateChanged(m, observer, iface, up);
      && (observer.ifaceName == Some(iface)
          <==> r.queue == m.queue + [CmdInterfaceStatusChanged(up, observer.generation)])
      && (observer.ifaceName != Some(iface) <==> r == m)
      && r.(queue := m.queue) == m
  {
  }

  /**
   * When the second name read returns null, the machine still enters Started,
   * but its observer forwards no link report at all, so a link-down is never
   * acted on.
   */
  lemma NullNameObserverIsDeaf(m: Machine, env: Collaborators, iface: string, up: bool)
    requires Inv(m) && m.state == Idle && AllStepsSucceed(env) && env.observerIfaceName.NameNull?
    ensures var r := ProcessMessage(m, CmdStart, env).machine;
      && r.state == Started
      && r.observer.Some? && r.observer.value.ifaceName.None?
      && LinkStateChanged(r, r.observer.value, iface, up) == r
  {
  }
}
