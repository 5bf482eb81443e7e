/** The module globals of rover-communication.js as one session object.
    Calls exported on `window.roverCommunication` are methods; socket events,
    timer firings and heartbeat ticks are methods the environment calls. What
    `websocket.send` received is kept in `outbox`. Every method names in its
    `modifies` clause exactly the globals the JavaScript function writes, and
    is proved against the pure functions of the Command, Reconnect and
    Telemetry modules. */
module Communication {
  import opened Common
  import opened Command
  import opened Reconnect
  import Telemetry

  /** `COMMAND_INTERVAL_MS`: the heartbeat period. */
  const COMMAND_INTERVAL_MS: nat := 1500
  /** `DEBOUNCE_MS`: the debounce delay of `sendSpeedCommandDebounced`. */
  const DEBOUNCE_MS: nat := 60

  /** The numeric part of `getCommandStats`. */
  datatype Stats = Stats(sent: nat, skipped: nat, total: nat, efficiencyTenths: int, reconnectAttempts: nat, connected: bool)

  /** The share `a / b` of a part `a` of a positive whole `b`, in percent,
      lies between 0 and 100, and is 100 for the whole. */
  lemma ShareBounds(a: real, b: real)
    requires 0.0 <= a <= b && b > 0.0
    ensures 0.0 <= (a / b) * 100.0 <= 100.0
    ensures a == b ==> (a / b) * 100.0 == 100.0
  {
    assert a / b <= 1.0 by {
      assert a / b * b == a;
    }
  }

  /** The efficiency figure of `getCommandStats`, in tenths of a percent:
      the share of skipped calls, `toFixed(1)`, or 0 before any call. */
  function EfficiencyTenths(sent: nat, skipped: nat): (e: int)
    ensures 0 <= e <= 1000
    ensures skipped == 0 ==> e == 0
    ensures sent == 0 && skipped > 0 ==> e == 1000
    // the nearest tenth of the skipped share, in percent, a tie rounded up
    ensures sent + skipped > 0 ==>
              var q := 1000.0 * (skipped as real / (sent + skipped) as real);
              e as real <= q + 0.5 < e as real + 1.0
  {
    if sent + skipped == 0 then 0
    else
      var share := (skipped as real / (sent + skipped) as real) * 100.0;
      ShareBounds(skipped as real, (sent + skipped) as real);
      Telemetry.ToFixed1(share)
  }

  class Session {
    // connection and reconnection globals
    var socket: ReadyState
    var isConnected: bool
    var isReconnecting: bool
    var connectTimer: bool
    var reconnectAttempts: nat
    var reconnectTimer: Option<nat>
    // command globals
    var lastCommand: Option<MotorCommand>
    var lastSentCommand: Option<MotorCommand>
    var commandsSent: nat
    var commandsSkipped: nat
    var lastSpeedMultiplier: Option<real>
    var headLampState: bool
    var stopModeActive: bool
    var avoidObjectState: bool
    var followObjectState: bool
    /** Whether the heartbeat interval runs. */
    var heartbeatRunning: bool
    /** Whether the 10 s performance-monitor interval runs. */
    var monitorRunning: bool
    /** The arguments of a pending debounced send. */
    var pendingDebounce: Option<(int, int)>
    /** `window.cameraAngle`, which code outside this file may set. */
    var windowCameraAngle: Option<int>
    /** The three telemetry readouts. */
    var telemetry: Telemetry.Display
    /** Every frame `websocket.send` accepted, in order. */
    var outbox: seq<MotorCommand>

    function LinkView(): Link
      reads this`socket, this`isConnected, this`isReconnecting, this`connectTimer,
            this`reconnectAttempts, this`reconnectTimer
    {
      Link(socket, isConnected, isReconnecting, connectTimer, reconnectAttempts, reconnectTimer)
    }

    function ArbiterView(): Arbiter
      reads this`lastCommand, this`lastSentCommand, this`commandsSent, this`commandsSkipped
    {
      Arbiter(lastCommand, lastSentCommand, commandsSent, commandsSkipped)
    }

    function CurrentFlags(): Flags
      reads this`headLampState, this`stopModeActive, this`avoidObjectState, this`followObjectState
    {
      Flags(headLampState, stopModeActive, avoidObjectState, followObjectState)
    }

    /** The guard of `sendSpeedCommand`. */
    predicate CanSend()
      reads this`socket, this`isConnected
    {
      socket == Open && isConnected
    }

    ghost predicate Valid()
      reads this`socket, this`isConnected, this`isReconnecting, this`connectTimer,
            this`reconnectAttempts, this`reconnectTimer
    {
      LinkValid(LinkView())
    }

    /** The effect of one `sendSpeedCommand` that built the frame `cmd` and
        whose `websocket.send` behaves as `t`. */
    twostate predicate Submitted(cmd: MotorCommand, force: bool, t: Transport)
      reads this
    {
      var o := Submit(old(ArbiterView()), old(CanSend()), cmd, force, t);
      ArbiterView() == o.after
      && LinkView() == (if o.linkLost then Step(old(LinkView()), SendThrew(true)) else old(LinkView()))
      && outbox == old(outbox) + (if o.transmitted then [cmd] else [])
    }

    /** The globals' values when the page loads. */
    constructor (windowAngle: Option<int>)
      ensures Valid() && LinkView() == INITIAL_LINK
      ensures ArbiterView() == Arbiter(None, None, 0, 0)
      ensures CurrentFlags() == Flags(false, false, false, false)
      ensures lastSpeedMultiplier == None && !heartbeatRunning && !monitorRunning && pendingDebounce == None
      ensures windowCameraAngle == windowAngle && outbox == []
      ensures telemetry == Telemetry.Display(None, None, None)
    {
      socket := NoSocket;
      isConnected := false;
      isReconnecting := false;
      connectTimer := false;
      reconnectAttempts := 0;
      reconnectTimer := None;
      lastCommand := None;
      lastSentCommand := None;
      commandsSent := 0;
      commandsSkipped := 0;
      lastSpeedMultiplier := None;
      headLampState := false;
      stopModeActive := false;
      avoidObjectState := false;
      followObjectState := false;
      heartbeatRunning := false;
      monitorRunning := false;
      pendingDebounce := None;
      windowCameraAngle := windowAngle;
      telemetry := Telemetry.Display(None, None, None);
      outbox := [];
    }

    // ---------------------------------------------------------------
    // WebSocket system
    // ---------------------------------------------------------------

    /** `cleanup`. */
    method Cleanup()
      modifies this`connectTimer, this`isConnected, this`isReconnecting
      ensures LinkView() == Reconnect.Cleanup(old(LinkView()))
    {
      connectTimer := false;
      isConnected := false;
      isReconnecting := false;
    }

    /** `scheduleReconnect`; only ever called below the attempt bound. */
    method ScheduleReconnect()
      requires reconnectAttempts < MAX_RECONNECT_ATTEMPTS
      modifies this`reconnectAttempts, this`reconnectTimer
      ensures LinkView() == Reconnect.ScheduleReconnect(old(LinkView()))
    {
      reconnectAttempts := reconnectAttempts + 1;
      reconnectTimer := Some(BackoffDelay(reconnectAttempts));
    }

    /** `handleConnectionFailure`. */
    method HandleConnectionFailure()
      modifies this`connectTimer, this`isConnected, this`isReconnecting, this`reconnectAttempts, this`reconnectTimer
      ensures LinkView() == ConnectionFailure(old(LinkView()))
    {
      Cleanup();
      if reconnectAttempts < MAX_RECONNECT_ATTEMPTS {
        ScheduleReconnect();
      }
    }

    /** `connectToServer`; `createFails` is whether `new WebSocket` throws. */
    method ConnectToServer(createFails: bool)
      requires Valid()
      modifies this`socket, this`isConnected, this`isReconnecting, this`connectTimer,
               this`reconnectAttempts, this`reconnectTimer
      ensures Valid()
      ensures LinkView() == Step(old(LinkView()), ConnectCall(createFails))
    {
      if isReconnecting {
        return;
      }
      if reconnectAttempts >= MAX_RECONNECT_ATTEMPTS {
        return;
      }
      // detach the old socket (closing it if it is OPEN or CONNECTING) and drop it
      socket := NoSocket;
      isReconnecting := true;
      if createFails {
        Cleanup();
        HandleConnectionFailure();
      } else {
        socket := Connecting;
        connectTimer := true;
      }
    }

    /** `websocket.onopen`. */
    method OnOpen()
      requires Valid() && socket == Connecting
      modifies this`socket, this`connectTimer, this`isConnected, this`isReconnecting, this`reconnectAttempts
      ensures Valid()
      ensures LinkView() == Step(old(LinkView()), SocketOpened)
    {
      socket := Open;
      connectTimer := false;
      isConnected := true;
      isReconnecting := false;
      reconnectAttempts := 0;
    }

    /** `websocket.onclose`. */
    method OnClose()
      requires Valid() && (socket == Connecting || socket == Open || socket == Closing)
      modifies this`socket, this`isConnected, this`isReconnecting, this`connectTimer,
               this`reconnectAttempts, this`reconnectTimer
      ensures Valid()
      ensures LinkView() == Step(old(LinkView()), SocketClosed)
    {
      socket := Closed;
      Cleanup();
      if !isReconnecting && reconnectAttempts < MAX_RECONNECT_ATTEMPTS {
        ScheduleReconnect();
      }
    }

    /** `websocket.onerror`; the close event that follows is `OnClose`. A
        socket the connection timeout closed while CONNECTING reports its
        failure this way too. */
    method OnError()
      requires Valid() && (socket == Connecting || socket == Open || socket == Closing)
      modifies this`socket, this`isConnected, this`isReconnecting, this`connectTimer,
               this`reconnectAttempts, this`reconnectTimer
      ensures Valid()
      ensures LinkView() == Step(old(LinkView()), SocketErrored)
    {
      socket := Closing;
      Cleanup();
      HandleConnectionFailure();
    }

    /** The 5000 ms connection timeout fires. */
    method ConnectTimeoutFires()
      requires Valid() && connectTimer
      modifies this`socket, this`isConnected, this`isReconnecting, this`connectTimer,
               this`reconnectAttempts, this`reconnectTimer
      ensures Valid()
      ensures LinkView() == Step(old(LinkView()), ConnectTimeout)
    {
      // the callback's guard `readyState === CONNECTING` always holds: the
      // timeout is pending only while the socket is connecting
      assert socket == Connecting;
      socket := Closing;
      HandleConnectionFailure();
    }

    /** The pending reconnection fires. */
    method ReconnectTimerFires(createFails: bool)
      requires Valid() && reconnectTimer.Some?
      modifies this`socket, this`isConnected, this`isReconnecting, this`connectTimer,
               this`reconnectAttempts, this`reconnectTimer
      ensures Valid()
      ensures LinkView() == Step(old(LinkView()), ReconnectFires(createFails))
    {
      reconnectTimer := None;
      ConnectToServer(createFails);
    }

    /** `resetConnection`. */
    method ResetConnection(createFails: bool)
      requires Valid()
      modifies this`socket, this`isConnected, this`isReconnecting, this`connectTimer,
               this`reconnectAttempts, this`reconnectTimer
      ensures Valid()
      ensures LinkView() == Step(old(LinkView()), ResetCall(createFails))
    {
      reconnectTimer := None;
      connectTimer := false;
      socket := NoSocket;
      isConnected := false;
      isReconnecting := false;
      reconnectAttempts := 0;
      ConnectToServer(createFails);
    }

    /** `websocket.onmessage`; only an open socket delivers messages. */
    method OnMessage(frame: Telemetry.Inbound)
      requires socket == Open
      modifies this`telemetry
      ensures telemetry == Telemetry.OnMessage(old(telemetry), frame)
    {
      telemetry := Telemetry.OnMessage(telemetry, frame);
    }

    // ---------------------------------------------------------------
    // Command system
    // ---------------------------------------------------------------

    /** `sendSpeedCommand`; `t` is how `websocket.send` behaves. */
    method SendSpeedCommand(left: int, right: int, force: bool, t: Transport) returns (ok: bool)
      requires Valid()
      modifies this`lastCommand, this`lastSentCommand, this`commandsSent, this`commandsSkipped,
               this`outbox, this`socket, this`isConnected
      ensures Valid()
      ensures Submitted(BuildCommand(left, right, windowCameraAngle, old(CurrentFlags())), force, t)
      ensures ok <==> |outbox| > |old(outbox)|
    {
      if !(socket == Open && isConnected) {
        return false;
      }
      var command := BuildCommand(left, right, windowCameraAngle, CurrentFlags());
      lastCommand := Some(command);
      var shouldSendImmediate := force || HasSignificantChange(command.K, command.Q, lastSentCommand)
                                 || HasStateChange(command, lastSentCommand);
      if !shouldSendImmediate {
        commandsSkipped := commandsSkipped + 1;
        return false;
      }
      match t
      case Delivered =>
        outbox := outbox + [command];
        lastSentCommand := Some(command);
        commandsSent := commandsSent + 1;
        ok := true;
      case Threw(closing) =>
        if closing {
          socket := Closing;
          isConnected := false;
        }
        ok := false;
    }

    /** `hasSpeedChange`. */
    method HasSpeedChange(current: real) returns (changed: bool)
      modifies this`lastSpeedMultiplier
      ensures var latch := SpeedLatch(old(lastSpeedMultiplier), current);
              lastSpeedMultiplier == latch.recorded && changed == latch.changed
    {
      if lastSpeedMultiplier.None? {
        lastSpeedMultiplier := Some(current);
        return false;
      }
      changed := AbsReal(current - lastSpeedMultiplier.value) > 0.01;
      if changed {
        lastSpeedMultiplier := Some(current);
      }
    }

    /** `sendSpeedCommandWithSpeed`: the speed latch is consulted first, even
        when the link is down, and a latched change forces the send. */
    method SendSpeedCommandWithSpeed(left: int, right: int, speed: real, force: bool, t: Transport) returns (ok: bool)
      requires Valid()
      modifies this`lastSpeedMultiplier, this`lastCommand, this`lastSentCommand, this`commandsSent,
               this`commandsSkipped, this`outbox, this`socket, this`isConnected
      ensures Valid()
      ensures lastSpeedMultiplier == SpeedLatch(old(lastSpeedMultiplier), speed).recorded
      ensures Submitted(BuildCommand(left, right, windowCameraAngle, old(CurrentFlags())),
                        force || SpeedLatch(old(lastSpeedMultiplier), speed).changed, t)
      ensures ok <==> |outbox| > |old(outbox)|
    {
      var speedChanged := HasSpeedChange(speed);
      ok := SendSpeedCommand(left, right, force || speedChanged, t);
    }

    /** `sendSpeedCommandDebounced`: replace any pending send by this one. */
    method SendSpeedCommandDebounced(left: int, right: int)
      modifies this`pendingDebounce
      ensures pendingDebounce == Some((left, right))
    {
      pendingDebounce := Some((left, right));
    }

    /** The debounce delay elapses: the last requested pair goes out unforced. */
    method DebounceFires(t: Transport) returns (ok: bool)
      requires Valid() && pendingDebounce.Some?
      modifies this`pendingDebounce, this`lastCommand, this`lastSentCommand, this`commandsSent,
               this`commandsSkipped, this`outbox, this`socket, this`isConnected
      ensures Valid()
      ensures pendingDebounce == None
      ensures Submitted(BuildCommand(old(pendingDebounce).value.0, old(pendingDebounce).value.1,
                                     windowCameraAngle, old(CurrentFlags())), false, t)
    {
      var (left, right) := pendingDebounce.value;
      pendingDebounce := None;
      ok := SendSpeedCommand(left, right, false, t);
    }

    /** `startCommandInterval`. */
    method StartCommandInterval()
      modifies this`heartbeatRunning
      ensures heartbeatRunning
    {
      heartbeatRunning := true;
    }

    /** One heartbeat tick: while connected, resend the last command's wheel
        values, forced, under the current flags. */
    method HeartbeatTick(t: Transport)
      requires Valid() && heartbeatRunning
      modifies this`lastCommand, this`lastSentCommand, this`commandsSent, this`commandsSkipped,
               this`outbox, this`socket, this`isConnected
      ensures Valid()
      ensures old(lastCommand).Some? && old(CanSend()) ==>
        Submitted(BuildCommand(old(lastCommand).value.K, old(lastCommand).value.Q, windowCameraAngle, CurrentFlags()), true, t)
      ensures !(old(lastCommand).Some? && old(CanSend())) ==>
        ArbiterView() == old(ArbiterView()) && LinkView() == old(LinkView()) && outbox == old(outbox)
    {
      if lastCommand.Some? && isConnected && socket == Open {
        var _ := SendSpeedCommand(lastCommand.value.K, lastCommand.value.Q, true, t);
      }
    }

    /** `stopCommandInterval`: stop the heartbeat, send a forced stop while
        connected, and leave a resting frame as the last command. */
    method StopCommandInterval(t: Transport)
      requires Valid()
      modifies this`heartbeatRunning, this`lastCommand, this`lastSentCommand, this`commandsSent,
               this`commandsSkipped, this`outbox, this`socket, this`isConnected
      ensures Valid()
      ensures !heartbeatRunning
      ensures lastCommand == Some(RestCommand(old(CurrentFlags())))
      // the forced stop goes out exactly when the link is up and send returns
      ensures var stopped := old(CanSend()) && t == Delivered;
              var stopFrame := BuildCommand(0, 0, windowCameraAngle, old(CurrentFlags()));
              outbox == old(outbox) + (if stopped then [stopFrame] else [])
              && lastSentCommand == (if stopped then Some(stopFrame) else old(lastSentCommand))
              && commandsSent == old(commandsSent) + (if stopped then 1 else 0)
      ensures commandsSkipped == old(commandsSkipped)
      ensures LinkView() == if old(CanSend()) && t == Threw(true) then Step(old(LinkView()), SendThrew(true)) else old(LinkView())
    {
      var flags := CurrentFlags();
      heartbeatRunning := false;
      if isConnected && socket == Open {
        ForcedSubmit(ArbiterView(), BuildCommand(0, 0, windowCameraAngle, flags), t);
        var _ := SendSpeedCommand(0, 0, true, t);
      }
      lastCommand := Some(RestCommand(flags));
    }

    /** `startPerformanceMonitoring`: the 10 s interval runs, replacing a
        running one. */
    method StartPerformanceMonitoring()
      modifies this`monitorRunning
      ensures monitorRunning
    {
      monitorRunning := true;
    }

    /** One tick of the performance monitor: once anything was counted, the
        statistics are logged and both counters restart from zero, so
        `getCommandStats` reports the calls since the last tick. */
    method PerformanceTick()
      requires monitorRunning
      modifies this`commandsSent, this`commandsSkipped
      ensures commandsSent == 0 && commandsSkipped == 0
    {
      if commandsSent > 0 || commandsSkipped > 0 {
        commandsSent := 0;
        commandsSkipped := 0;
      }
    }

    /** `stopPerformanceMonitoring`. */
    method StopPerformanceMonitoring()
      modifies this`monitorRunning
      ensures !monitorRunning
    {
      monitorRunning := false;
    }

    /** The statistics of `getCommandStats`. */
    function GetCommandStats(): (s: Stats)
      reads this`commandsSent, this`commandsSkipped, this`reconnectAttempts, this`isConnected
      ensures s.total == s.sent + s.skipped && 0 <= s.efficiencyTenths <= 1000
      ensures s.efficiencyTenths == EfficiencyTenths(commandsSent, commandsSkipped)
      ensures s.sent == commandsSent && s.skipped == commandsSkipped
      ensures s.reconnectAttempts == reconnectAttempts && s.connected == isConnected
    {
      Stats(commandsSent, commandsSkipped, commandsSent + commandsSkipped,
            EfficiencyTenths(commandsSent, commandsSkipped), reconnectAttempts, isConnected)
    }

    // ---------------------------------------------------------------
    // Rover state switches
    // ---------------------------------------------------------------

    /** The common tail of the four setters: if there is a last command and
        the connected flag is up, resend its wheel values, forced. */
    method ResendLastCommand(t: Transport)
      requires Valid()
      modifies this`lastCommand, this`lastSentCommand, this`commandsSent, this`commandsSkipped,
               this`outbox, this`socket, this`isConnected
      ensures Valid()
      ensures old(lastCommand).Some? && old(isConnected) ==>
        Submitted(BuildCommand(old(lastCommand).value.K, old(lastCommand).value.Q, windowCameraAngle, CurrentFlags()), true, t)
      ensures !(old(lastCommand).Some? && old(isConnected)) ==>
        ArbiterView() == old(ArbiterView()) && LinkView() == old(LinkView()) && outbox == old(outbox)
    {
      if lastCommand.Some? && isConnected {
        var _ := SendSpeedCommand(lastCommand.value.K, lastCommand.value.Q, true, t);
      }
    }

    /** `setHeadlampState`. */
    method SetHeadlampState(state: bool, t: Transport)
      requires Valid()
      modifies this`headLampState, this`lastCommand, this`lastSentCommand, this`commandsSent,
               this`commandsSkipped, this`outbox, this`socket, this`isConnected
      ensures Valid()
      ensures CurrentFlags() == old(CurrentFlags()).(headLamp := state)
      ensures old(lastCommand).Some? && old(isConnected) ==>
        Submitted(BuildCommand(old(lastCommand).value.K, old(lastCommand).value.Q, windowCameraAngle, CurrentFlags()), true, t)
      ensures !(old(lastCommand).Some? && old(isConnected)) ==>
        ArbiterView() == old(ArbiterView()) && LinkView() == old(LinkView()) && outbox == old(outbox)
    {
      headLampState := state;
      ResendLastCommand(t);
    }

    /** `setStopModeState`. */
    method SetStopModeState(state: bool, t: Transport)
      requires Valid()
      modifies this`stopModeActive, this`lastCommand, this`lastSentCommand, this`commandsSent,
               this`commandsSkipped, this`outbox, this`socket, this`isConnected
      ensures Valid()
      ensures CurrentFlags() == old(CurrentFlags()).(stopMode := state)
      ensures old(lastCommand).Some? && old(isConnected) ==>
        Submitted(BuildCommand(old(lastCommand).value.K, old(lastCommand).value.Q, windowCameraAngle, CurrentFlags()), true, t)
      ensures !(old(lastCommand).Some? && old(isConnected)) ==>
        ArbiterView() == old(ArbiterView()) && LinkView() == old(LinkView()) && outbox == old(outbox)
    {
      stopModeActive := state;
      ResendLastCommand(t);
    }

    /** `setAvoidObjectState`. */
    method SetAvoidObjectState(state: bool, t: Transport)
      requires Valid()
      modifies this`avoidObjectState, this`lastCommand, this`lastSentCommand, this`commandsSent,
               this`commandsSkipped, this`outbox, this`socket, this`isConnected
      ensures Valid()
      ensures CurrentFlags() == old(CurrentFlags()).(avoidObject := state)
      ensures old(lastCommand).Some? && old(isConnected) ==>
        Submitted(BuildCommand(old(lastCommand).value.K, old(lastCommand).value.Q, windowCameraAngle, CurrentFlags()), true, t)
      ensures !(old(lastCommand).Some? && old(isConnected)) ==>
        ArbiterView() == old(ArbiterView()) && LinkView() == old(LinkView()) && outbox == old(outbox)
    {
      avoidObjectState := state;
      ResendLastCommand(t);
    }

    /** `setFollowObjectState`. */
    method SetFollowObjectState(state: bool, t: Transport)
      requires Valid()
      modifies this`followObjectState, this`lastCommand, this`lastSentCommand, this`commandsSent,
               this`commandsSkipped, this`outbox, this`socket, this`isConnected
      ensures Valid()
      ensures CurrentFlags() == old(CurrentFlags()).(followObject := state)
      ensures old(lastCommand).Some? && old(isConnected) ==>
        Submitted(BuildCommand(old(lastCommand).value.K, old(lastCommand).value.Q, windowCameraAngle, CurrentFlags()), true, t)
      ensures !(old(lastCommand).Some? && old(isConnected)) ==>
        ArbiterView() == old(ArbiterView()) && LinkView() == old(LinkView()) && outbox == old(outbox)
    {
      followObjectState := state;
      ResendLastCommand(t);
    }

    // ---------------------------------------------------------------
    // Initialisation and shutdown
    // ---------------------------------------------------------------

    /** `initializeCommunicationSystem`. */
    method Initialize(createFails: bool)
      requires Valid()
      modifies this`heartbeatRunning, this`monitorRunning, this`lastCommand, this`socket, this`isConnected, this`isReconnecting,
               this`connectTimer, this`reconnectAttempts, this`reconnectTimer
      ensures Valid()
      ensures lastCommand == Some(RestCommand(CurrentFlags())) && heartbeatRunning && monitorRunning
      ensures LinkView() == Step(old(LinkView()), ConnectCall(createFails))
    {
      heartbeatRunning := false;
      monitorRunning := false;
      lastCommand := Some(RestCommand(CurrentFlags()));
      ConnectToServer(createFails);
      StartCommandInterval();
      StartPerformanceMonitoring();
    }

    /** The socket part of `shutdownCommunicationSystem`: write the shutdown
        frame if the socket is still OPEN (a throwing send is ignored), then
        close and drop it. */
    method CloseForShutdown(final: Transport)
      modifies this`socket, this`outbox
      ensures socket == NoSocket
      ensures outbox == old(outbox) + (if old(socket) == Open && final == Delivered then [SHUTDOWN_FRAME] else [])
    {
      if socket != NoSocket {
        if socket == Open && final == Delivered {
          outbox := outbox + [SHUTDOWN_FRAME];
        }
        socket := NoSocket;
      }
    }

    /** `shutdownCommunicationSystem`. `t` is how the stop frame's send
        behaves and `final` how the shutdown frame's send behaves. */
    method Shutdown(t: Transport, final: Transport)
      requires Valid()
      modifies this`heartbeatRunning, this`monitorRunning, this`lastCommand, this`lastSentCommand, this`commandsSent,
               this`commandsSkipped, this`outbox, this`socket, this`isConnected, this`isReconnecting,
               this`connectTimer, this`reconnectAttempts, this`reconnectTimer, this`pendingDebounce
      ensures Valid()
      ensures LinkView() == INITIAL_LINK
      ensures !heartbeatRunning && !monitorRunning && pendingDebounce == None
      ensures lastCommand == Some(RestCommand(old(CurrentFlags())))
      ensures var stopFrame := BuildCommand(0, 0, windowCameraAngle, old(CurrentFlags()));
              var stopSent := old(CanSend()) && t == Delivered;
              var stillOpen := old(socket) == Open && !(old(CanSend()) && t == Threw(true));
              outbox == old(outbox) + (if stopSent then [stopFrame] else [])
                                    + (if stillOpen && final == Delivered then [SHUTDOWN_FRAME] else [])
              && lastSentCommand == (if stopSent then Some(stopFrame) else old(lastSentCommand))
              && commandsSent == old(commandsSent) + (if stopSent then 1 else 0)
      ensures commandsSkipped == old(commandsSkipped)
    {
      StopCommandInterval(t);
      StopPerformanceMonitoring();
      ClearTimeouts();
      CloseForShutdown(final);
      isConnected := false;
      isReconnecting := false;
      reconnectAttempts := 0;
    }

    /** The timeout part of `shutdownCommunicationSystem`: cancel the
        pending reconnection, the connection timeout and the debounce. */
    method ClearTimeouts()
      modifies this`reconnectTimer, this`connectTimer, this`pendingDebounce
      ensures reconnectTimer == None && !connectTimer && pendingDebounce == None
    {
      reconnectTimer := None;
      connectTimer := false;
      pendingDebounce := None;
    }
  }

  /** A client of the session: an error on a connecting socket and the
      close event that follows it use up two attempt numbers. */
  method ErrorThenClose(s: Session)
    requires s.Valid() && s.socket == Connecting && s.reconnectAttempts + 2 <= MAX_RECONNECT_ATTEMPTS
    modifies s
    ensures s.Valid() && s.reconnectAttempts == old(s.reconnectAttempts) + 2
    ensures s.reconnectTimer == Some(BackoffDelay(s.reconnectAttempts))
  {
    s.OnError();
    s.OnClose();
  }
}
