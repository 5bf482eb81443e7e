/** dashboard-clean.js, the earlier tank-drive page that talks to the rover
    itself: every slider move is debounced and sent as a four-field frame
    `{K, Q, D: 90, M: headLampState}` whenever the socket is open, with no
    change threshold; a heartbeat resends the last frame; a closed socket is
    reopened after a fixed delay with no bound on the attempts. The page's
    globals are the fields of one object, the two sliders the objects it
    acts on. The socket's events, the timers' callbacks and the outcome of
    `websocket.send` are explicit steps and parameters. */
module DashboardClean {
  import opened Common
  import opened Sliders
  import opened Switches
  import opened Reconnect
  import opened Command

  /** The fixed delay before the socket is reopened after a close. */
  const RECONNECT_DELAY_MS: nat := 3000
  /** `COMMAND_INTERVAL_MS`, the heartbeat period. */
  const COMMAND_INTERVAL_MS: nat := 1500
  /** `DEBOUNCE_MS`. */
  const DEBOUNCE_MS: nat := 50
  /** The camera angle every frame of this page carries. */
  const FIXED_CAMERA_ANGLE: int := 90
  /** This page's `syncSliders` detent and range. */
  const SNAP_VALUE: int := 0
  const SNAP_RANGE: int := 8

  /** The frame this page sends: left track, right track, camera, lamp. */
  datatype SpeedFrame = SpeedFrame(K: int, Q: int, D: int, M: bool)

  /** The frame `sendSpeedCommand(left, right)` builds. */
  function Frame(left: int, right: int, headLamp: bool): SpeedFrame
  {
    SpeedFrame(left, right, FIXED_CAMERA_ANGLE, headLamp)
  }

  /** Whether `sendSpeedCommand` hands its frame to the socket: only an
      open socket is written to, and a throwing `send` delivers nothing. */
  predicate Transmits(socket: ReadyState, t: Transport)
  {
    socket == Open && t == Delivered
  }

  class Dashboard {
    var isSyncing: bool
    var slideLockActive: bool
    var lit: set<SwitchId>
    const left: Slider
    const right: Slider

    /** `websocket.readyState`, `NoSocket` while `websocket` is null. */
    var socket: ReadyState
    var isConnected: bool
    /** The 5000 ms connection timeout is armed. */
    var timeoutArmed: bool
    /** A `setTimeout(connectToServer, 3000)` from a close is pending. */
    var reconnectPending: bool

    var lastCommand: Option<SpeedFrame>
    var lastSentCommand: Option<SpeedFrame>
    var headLampState: bool
    var intervalRunning: bool
    /** The arguments of the pending debounced send, if any. */
    var debounced: Option<SpeedRequest>
    /** Every frame the socket accepted, oldest first. */
    var outbox: seq<SpeedFrame>

    /** The slider an event on `side` comes from, and the other one. */
    function Source(side: Side): Slider
    {
      if side == Left then left else right
    }

    function Target(side: Side): Slider
    {
      if side == Left then right else left
    }

    /** The connection flags agree with the socket: connected exactly when
        it is open, the timeout armed only while connecting, a reopen
        pending only once it has closed. */
    ghost predicate LinkValid()
      reads this`socket, this`isConnected, this`timeoutArmed, this`reconnectPending
    {
      && (isConnected <==> socket == Open)
      && (timeoutArmed ==> socket == Connecting)
      && (reconnectPending ==> socket == Closed)
    }

    /** The slide lock agrees with its switch. */
    predicate LockMatchesSwitch()
      reads this`slideLockActive, this`lit
    {
      slideLockActive <==> SlideLock in lit
    }

    /** The globals when the script loads, over a page whose switches
        `initiallyLit` are lit by its markup. */
    constructor (l: Slider, r: Slider, initiallyLit: set<SwitchId>)
      requires l != r
      ensures left == l && right == r && left != right && lit == initiallyLit
      ensures LinkValid() && socket == NoSocket && !reconnectPending
      ensures !isSyncing && !slideLockActive && !headLampState && !intervalRunning
      ensures lastCommand == None && lastSentCommand == None && debounced == None && outbox == []
    {
      left := l;
      right := r;
      lit := initiallyLit;
      isSyncing := false;
      slideLockActive := false;
      socket := NoSocket;
      isConnected := false;
      timeoutArmed := false;
      reconnectPending := false;
      lastCommand := None;
      lastSentCommand := None;
      headLampState := false;
      intervalRunning := false;
      debounced := None;
      outbox := [];
    }

    /** `connectToServer`, called at load (no socket yet) and by the
        reopen timer (the socket has closed). When `new WebSocket` throws
        nothing is armed, so nothing ever reopens the connection. */
    method ConnectToServer(createFails: bool)
      requires LinkValid() && !reconnectPending && (socket == NoSocket || socket == Closed)
      modifies this`socket, this`isConnected, this`timeoutArmed
      ensures LinkValid() && !reconnectPending
      ensures createFails ==> socket == old(socket) && !timeoutArmed
      ensures !createFails ==> socket == Connecting && timeoutArmed
    {
      if createFails {
        isConnected := false;
        return;
      }
      socket := Connecting;
      timeoutArmed := true;
    }

    /** The connection timeout fires: a socket still connecting is closed. */
    method ConnectTimeoutFires()
      requires LinkValid() && timeoutArmed
      modifies this`socket, this`timeoutArmed
      ensures LinkValid() && socket == Closing && !timeoutArmed
    {
      timeoutArmed := false;
      if socket == Connecting {
        socket := Closing;
      }
    }

    /** `onopen`. */
    method SocketOpened()
      requires LinkValid() && socket == Connecting
      modifies this`socket, this`isConnected, this`timeoutArmed
      ensures LinkValid() && socket == Open && isConnected && !timeoutArmed
    {
      timeoutArmed := false;
      isConnected := true;
      socket := Open;
    }

    /** `onclose`: the timeout is cleared and a reopen is scheduled after
        `RECONNECT_DELAY_MS`, however many attempts came before. */
    method SocketClosed()
      requires LinkValid() && (socket == Connecting || socket == Open || socket == Closing)
      modifies this`socket, this`isConnected, this`timeoutArmed, this`reconnectPending
      ensures LinkValid() && socket == Closed && !isConnected && !timeoutArmed && reconnectPending
    {
      socket := Closed;
      timeoutArmed := false;
      isConnected := false;
      reconnectPending := true;
    }

    /** `onerror`: the timeout is cleared and the link marked down; the
        socket is on its way to closing, and `onclose` follows. */
    method SocketError()
      requires LinkValid() && (socket == Connecting || socket == Open || socket == Closing)
      modifies this`socket, this`isConnected, this`timeoutArmed
      ensures LinkValid() && socket == Closing && !isConnected && !timeoutArmed
      ensures reconnectPending == old(reconnectPending)
    {
      timeoutArmed := false;
      isConnected := false;
      socket := Closing;
    }

    /** The reopen timer fires and runs `connectToServer`. */
    method ReconnectTimerFires(createFails: bool)
      requires LinkValid() && reconnectPending
      modifies this`socket, this`isConnected, this`timeoutArmed, this`reconnectPending
      ensures LinkValid() && !reconnectPending
      ensures createFails ==> socket == Closed && !isConnected && !timeoutArmed
      ensures !createFails ==> socket == Connecting && timeoutArmed
    {
      reconnectPending := false;
      ConnectToServer(createFails);
    }

    /** `sendSpeedCommand(left, right)`: the frame always becomes
        `lastCommand`; it is written, and becomes `lastSentCommand`, exactly
        when the socket is open and `send` does not throw. Repeating a frame
        writes it again: there is no threshold. */
    method SendSpeedCommand(l: int, r: int, t: Transport)
      modifies this`lastCommand, this`lastSentCommand, this`outbox
      ensures lastCommand == Some(Frame(l, r, headLampState))
      ensures Transmits(socket, t) ==>
                outbox == old(outbox) + [Frame(l, r, headLampState)] && lastSentCommand == lastCommand
      ensures !Transmits(socket, t) ==>
                outbox == old(outbox) && lastSentCommand == old(lastSentCommand)
    {
      var command := Frame(l, r, headLampState);
      lastCommand := Some(command);
      if socket == Open {
        if t == Delivered {
          outbox := outbox + [command];
          lastSentCommand := Some(command);
        }
      }
    }

    /** `sendSpeedCommandDebounced`: a pending send is replaced. */
    method SendSpeedCommandDebounced(l: int, r: int)
      modifies this`debounced
      ensures debounced == Some(SpeedRequest(l, r))
    {
      debounced := Some(SpeedRequest(l, r));
    }

    /** The debounce timer fires: the latest request is sent. */
    method DebounceElapsed(t: Transport)
      requires debounced.Some?
      modifies this`debounced, this`lastCommand, this`lastSentCommand, this`outbox
      ensures debounced == None
      ensures lastCommand == Some(Frame(old(debounced).value.left, old(debounced).value.right, headLampState))
      ensures Transmits(socket, t) ==> outbox == old(outbox) + [lastCommand.value] && lastSentCommand == lastCommand
      ensures !Transmits(socket, t) ==> outbox == old(outbox) && lastSentCommand == old(lastSentCommand)
    {
      var request := debounced.value;
      debounced := None;
      SendSpeedCommand(request.left, request.right, t);
    }

    /** `startCommandInterval`. */
    method StartCommandInterval()
      modifies this`intervalRunning
      ensures intervalRunning
    {
      intervalRunning := true;
    }

    /** A heartbeat tick: the last frame's tracks are resent with the
        headlamp state of now. */
    method HeartbeatTick(t: Transport)
      requires intervalRunning
      modifies this`lastCommand, this`lastSentCommand, this`outbox
      ensures old(lastCommand) == None ==> lastCommand == None && outbox == old(outbox)
      ensures old(lastCommand).Some? ==>
                lastCommand == Some(Frame(old(lastCommand).value.K, old(lastCommand).value.Q, headLampState))
      ensures old(lastCommand).Some? && Transmits(socket, t) ==>
                outbox == old(outbox) + [lastCommand.value] && lastSentCommand == lastCommand
      ensures !(old(lastCommand).Some? && Transmits(socket, t)) ==>
                outbox == old(outbox) && lastSentCommand == old(lastSentCommand)
    {
      if lastCommand.Some? {
        var last := lastCommand.value;
        SendSpeedCommand(last.K, last.Q, t);
      }
    }

    /** `stopCommandInterval`, run on `beforeunload`, `unload` and
        `pagehide`: the heartbeat stops, a (0, 0) frame goes out if the
        socket is open, and `lastCommand` is the rest frame. */
    method StopCommandInterval(t: Transport)
      modifies this`intervalRunning, this`lastCommand, this`lastSentCommand, this`outbox
      ensures !intervalRunning
      ensures lastCommand == Some(Frame(0, 0, headLampState))
      ensures Transmits(socket, t) ==>
                outbox == old(outbox) + [Frame(0, 0, headLampState)] && lastSentCommand == Some(Frame(0, 0, headLampState))
      ensures !Transmits(socket, t) ==> outbox == old(outbox) && lastSentCommand == old(lastSentCommand)
    {
      intervalRunning := false;
      SendSpeedCommand(0, 0, t);
      lastCommand := Some(Frame(0, 0, headLampState));
    }

    /** The two `DOMContentLoaded` handlers: connect, seed `lastCommand`
        with the rest frame, start the heartbeat, read the slide lock from
        its switch. */
    method ContentLoaded(createFails: bool)
      requires LinkValid() && socket == NoSocket && !reconnectPending
      modifies this`socket, this`isConnected, this`timeoutArmed, this`lastCommand,
               this`intervalRunning, this`slideLockActive
      ensures LinkValid() && LockMatchesSwitch() && intervalRunning && !reconnectPending
      ensures lastCommand == Some(Frame(0, 0, headLampState))
      ensures createFails ==> socket == NoSocket
      ensures !createFails ==> socket == Connecting && timeoutArmed
    {
      ConnectToServer(createFails);
      lastCommand := Some(Frame(0, 0, headLampState));
      StartCommandInterval();
      slideLockActive := SlideLock in lit;
    }

    /** `syncSliders(source, target)` on a slider's `change` event: nothing
        while guarded; otherwise the source snaps onto the centre detent, a
        locked target follows, and both values are queued for sending. */
    method SyncSliders(side: Side)
      requires left != right
      modifies this`isSyncing, left`value, right`value, this`debounced
      ensures isSyncing
      ensures old(isSyncing) ==>
                left.value == old(left.value) && right.value == old(right.value) && debounced == old(debounced)
      ensures !old(isSyncing) ==>
                Source(side).value == MagneticSnap(old(Source(side).value), SNAP_VALUE, SNAP_RANGE).value
      ensures !old(isSyncing) && slideLockActive ==> left.value == right.value
      ensures !old(isSyncing) && !slideLockActive ==> Target(side).value == old(Target(side).value)
      ensures !old(isSyncing) ==> debounced == Some(SpeedRequest(left.value, right.value))
    {
      if isSyncing {
        return;
      }
      isSyncing := true;
      var _ := SnapAndMirror(Source(side), Target(side), slideLockActive, SNAP_VALUE, SNAP_RANGE);
      SendSpeedCommandDebounced(left.value, right.value);
    }

    /** A slider's `input` event after the user moved it to `v`: while
        guarded nothing else happens; otherwise a locked partner is set to
        `v` under the guard and both values are queued for sending. */
    method SliderInput(side: Side, v: int)
      requires left != right
      modifies this`isSyncing, left`value, right`value, this`debounced
      ensures Source(side).value == v
      ensures old(isSyncing) ==>
                isSyncing && Target(side).value == old(Target(side).value) && debounced == old(debounced)
      ensures !old(isSyncing) ==> isSyncing == slideLockActive
      ensures !old(isSyncing) && slideLockActive ==> Target(side).value == v
      ensures !old(isSyncing) && !slideLockActive ==> Target(side).value == old(Target(side).value)
      ensures !old(isSyncing) ==> debounced == Some(SpeedRequest(left.value, right.value))
    {
      Source(side).value := v;
      if isSyncing {
        return;
      }
      if slideLockActive {
        isSyncing := true;
        Target(side).value := Source(side).value;
      }
      SendSpeedCommandDebounced(left.value, right.value);
    }

    /** The guard's `setTimeout` callback. */
    method GuardElapsed()
      modifies this`isSyncing
      ensures !isSyncing
    {
      isSyncing := false;
    }

    /** A click on a switch: it toggles; the headlamp switch sets
        `headLampState` and resends the last frame's tracks with it; the
        slide-lock switch flips the lock (a second listener, independent of
        the class) and, when locking, copies left into right under the
        guard; a lit joystick-mode switch opens the joystick page, which is
        the result. */
    method ClickSwitch(id: SwitchId, t: Transport) returns (openJoystickPage: bool)
      requires left != right
      modifies this`lit, this`headLampState, this`slideLockActive, this`isSyncing, right`value,
               this`lastCommand, this`lastSentCommand, this`outbox
      ensures lit == Toggle(old(lit), id)
      ensures openJoystickPage <==> id == JoystickMode && JoystickMode in lit
      ensures id == Headlamp ==> headLampState == (Headlamp in lit)
      ensures id != Headlamp ==> headLampState == old(headLampState)
      ensures id == Headlamp && old(lastCommand).Some? ==>
                lastCommand == Some(Frame(old(lastCommand).value.K, old(lastCommand).value.Q, headLampState))
      ensures id == Headlamp && old(lastCommand).Some? && Transmits(socket, t) ==>
                outbox == old(outbox) + [lastCommand.value] && lastSentCommand == lastCommand
      ensures !(id == Headlamp && old(lastCommand).Some? && Transmits(socket, t)) ==>
                outbox == old(outbox) && lastSentCommand == old(lastSentCommand)
      ensures !(id == Headlamp && old(lastCommand).Some?) ==> lastCommand == old(lastCommand)
      ensures id == SlideLock ==> slideLockActive == !old(slideLockActive)
      ensures id == SlideLock && old(LockMatchesSwitch()) ==> LockMatchesSwitch()
      ensures id != SlideLock ==> slideLockActive == old(slideLockActive)
      ensures id == SlideLock && slideLockActive ==> isSyncing && right.value == left.value
      ensures !(id == SlideLock && slideLockActive) ==>
                isSyncing == old(isSyncing) && right.value == old(right.value)
    {
      lit := Toggle(lit, id);
      openJoystickPage := false;
      if id == Headlamp {
        headLampState := Headlamp in lit;
        if lastCommand.Some? {
          var last := lastCommand.value;
          SendSpeedCommand(last.K, last.Q, t);
        }
      } else if id == JoystickMode {
        openJoystickPage := JoystickMode in lit;
      } else if id == SlideLock {
        slideLockActive := !slideLockActive;
        if slideLockActive {
          isSyncing := true;
          right.value := left.value;
        }
      }
    }
  }
}
