/** The module globals of joystick-control.js as one controller object:
    mouse and touch drags, the speed slider and its programmatic setter, the
    keyboard and the gamepad move the knob position and the speed
    multiplier, and every move runs `updateMotorValues`, whose zone
    pre-filter decides whether a motor intent is forwarded to
    `sendSpeedCommandWithSpeed`. The forwarded intent is each method's
    result. Whether the stop-mode switch is lit is read from the page, so it
    is a parameter. */
module JoystickControl {
  import opened Common
  import opened DifferentialDrive

  /** The gamepad's change of speed per tick at full right-stick travel. */
  const STICK_SPEED_STEP: real := 0.02

  /** The left stick and the right stick's vertical axis (axes 0, 1, 3). */
  datatype Sticks = Sticks(leftX: real, leftY: real, rightY: real)

  class Controller {
    var joystickActive: bool
    var isDragging: bool
    var position: Position
    var speedMultiplier: real
    var gamepadActive: bool
    var gamepadIndex: int
    var lastDirectionZone: Option<Zone>
    var lastZoneCommand: Option<ZoneRecord>

    function Tracking(): ZoneTracking
      reads this`lastDirectionZone, this`lastZoneCommand
    {
      ZoneTracking(lastDirectionZone, lastZoneCommand)
    }

    /** The speed multiplier is a fraction and the two zone fields agree. */
    ghost predicate Valid()
      reads this`speedMultiplier, this`lastDirectionZone, this`lastZoneCommand
    {
      0.0 <= speedMultiplier <= 1.0 && TrackingValid(Tracking())
    }

    /** The globals' values when the script loads. */
    constructor ()
      ensures Valid()
      ensures !joystickActive && !isDragging && position == CENTRE && speedMultiplier == 0.5
      ensures !gamepadActive && gamepadIndex == -1 && Tracking() == NO_TRACKING
    {
      joystickActive := false;
      isDragging := false;
      position := CENTRE;
      speedMultiplier := 0.5;
      gamepadActive := false;
      gamepadIndex := -1;
      lastDirectionZone := None;
      lastZoneCommand := None;
    }

    /** `shouldSendCommandForZone`. */
    method ShouldSendCommandForZone() returns (fire: bool)
      requires Valid()
      modifies this`lastDirectionZone, this`lastZoneCommand
      ensures Valid()
      ensures var d := ShouldSendForZone(old(Tracking()), DirectionZone(position),
                                         CalculateMotorValues(position, speedMultiplier));
              fire == d.fire && Tracking() == d.tracking
    {
      var currentZone := DirectionZone(position);
      var motorValues := CalculateMotorValues(position, speedMultiplier);
      if Some(currentZone) != lastDirectionZone {
        lastDirectionZone := Some(currentZone);
        lastZoneCommand := Some(ZoneRecord(currentZone, motorValues.left, motorValues.right));
        return true;
      }
      if lastZoneCommand.Some? {
        var leftDiff := Abs(motorValues.left - lastZoneCommand.value.left);
        var rightDiff := Abs(motorValues.right - lastZoneCommand.value.right);
        if leftDiff >= ZONE_DRIFT || rightDiff >= ZONE_DRIFT {
          lastZoneCommand := Some(ZoneRecord(currentZone, motorValues.left, motorValues.right));
          return true;
        }
      }
      return false;
    }

    /** `updateMotorValues`. */
    method UpdateMotorValues(stopMode: bool) returns (intent: Option<Intent>)
      requires Valid()
      modifies this`lastDirectionZone, this`lastZoneCommand
      ensures Valid()
      ensures var s := DifferentialDrive.UpdateMotorValues(old(Tracking()), position, speedMultiplier, stopMode);
              intent == s.intent && Tracking() == s.tracking
    {
      var motorValues := CalculateMotorValues(position, speedMultiplier);
      var leftMotor := if stopMode then 0 else motorValues.left;
      var rightMotor := if stopMode then 0 else motorValues.right;
      var fire := ShouldSendCommandForZone();
      if fire || StopModeMismatch(stopMode, lastZoneCommand) {
        intent := Some(Intent(leftMotor, rightMotor, speedMultiplier, false));
      } else {
        intent := None;
      }
    }

    /** `startDrag` and `startDragTouch`. */
    method StartDrag()
      modifies this`isDragging, this`joystickActive
      ensures isDragging && joystickActive
    {
      isDragging := true;
      joystickActive := true;
    }

    /** `updateJoystickPosition`; the offset is within the knob's travel. */
    method UpdateJoystickPosition(dx: real, dy: real, stopMode: bool) returns (intent: Option<Intent>)
      requires Valid()
      requires dx * dx + dy * dy <= JOYSTICK_RADIUS * JOYSTICK_RADIUS
      modifies this`position, this`lastDirectionZone, this`lastZoneCommand
      ensures Valid()
      ensures position == ApplyDeadZone(dx, dy)
      ensures var s := DifferentialDrive.UpdateMotorValues(old(Tracking()), position, speedMultiplier, stopMode);
              intent == s.intent && Tracking() == s.tracking
    {
      position := ApplyDeadZone(dx, dy);
      intent := UpdateMotorValues(stopMode);
    }

    /** `handleDrag` and `handleDragTouch`: moves are ignored unless a drag
        is in progress. */
    method HandleDrag(dx: real, dy: real, stopMode: bool) returns (intent: Option<Intent>)
      requires Valid()
      requires dx * dx + dy * dy <= JOYSTICK_RADIUS * JOYSTICK_RADIUS
      modifies this`position, this`lastDirectionZone, this`lastZoneCommand
      ensures Valid()
      ensures !isDragging ==> intent == None && position == old(position) && Tracking() == old(Tracking())
      ensures isDragging ==> position == ApplyDeadZone(dx, dy)
      ensures isDragging ==>
              var s := DifferentialDrive.UpdateMotorValues(old(Tracking()), position, speedMultiplier, stopMode);
              intent == s.intent && Tracking() == s.tracking
    {
      if !isDragging {
        return None;
      }
      intent := UpdateJoystickPosition(dx, dy, stopMode);
    }

    /** `stopDrag`: releasing the knob recentres it, resets the zone
        tracking and so always sends a stop. */
    method StopDrag(stopMode: bool) returns (intent: Option<Intent>)
      requires Valid()
      modifies this`isDragging, this`joystickActive, this`position,
               this`lastDirectionZone, this`lastZoneCommand
      ensures Valid()
      ensures !old(isDragging) ==>
              intent == None && !isDragging && joystickActive == old(joystickActive)
              && position == old(position) && Tracking() == old(Tracking())
      ensures old(isDragging) ==>
              !isDragging && !joystickActive && position == CENTRE
              && intent == Some(Intent(0, 0, speedMultiplier, false))
              && Tracking() == DifferentialDrive.UpdateMotorValues(NO_TRACKING, CENTRE, speedMultiplier, stopMode).tracking
    {
      if !isDragging {
        return None;
      }
      isDragging := false;
      joystickActive := false;
      position := CENTRE;
      lastDirectionZone := None;
      lastZoneCommand := None;
      RecentreSendsStop(speedMultiplier, stopMode);
      intent := UpdateMotorValues(stopMode);
    }

    /** The shared tail of the speed slider and `setSpeedMultiplier`: a
        change of more than 0.01 forces an immediate send of the current
        (stop-mode-overridden) wheels without consulting the pre-filter;
        a smaller one goes through `updateMotorValues`. */
    method ChangeSpeed(newSpeed: real, stopMode: bool) returns (intent: Option<Intent>)
      requires Valid() && 0.0 <= newSpeed <= 1.0
      modifies this`speedMultiplier, this`lastDirectionZone, this`lastZoneCommand
      ensures Valid() && speedMultiplier == newSpeed
      ensures SpeedChanged(old(speedMultiplier), newSpeed) ==>
              var shown := Displayed(CalculateMotorValues(position, newSpeed), stopMode);
              intent == Some(Intent(shown.left, shown.right, newSpeed, true)) && Tracking() == old(Tracking())
      ensures !SpeedChanged(old(speedMultiplier), newSpeed) ==>
              var s := DifferentialDrive.UpdateMotorValues(old(Tracking()), position, newSpeed, stopMode);
              intent == s.intent && Tracking() == s.tracking
    {
      var speedChanged := AbsReal(newSpeed - speedMultiplier) > 0.01;
      speedMultiplier := newSpeed;
      if speedChanged {
        var motorValues := CalculateMotorValues(position, speedMultiplier);
        var leftMotor := if stopMode then 0 else motorValues.left;
        var rightMotor := if stopMode then 0 else motorValues.right;
        intent := Some(Intent(leftMotor, rightMotor, speedMultiplier, true));
      } else {
        intent := UpdateMotorValues(stopMode);
      }
    }

    /** The speed slider's `input` handler; the slider's range is 0..100. */
    method SpeedSliderInput(value: int, stopMode: bool) returns (intent: Option<Intent>)
      requires Valid() && 0 <= value <= 100
      modifies this`speedMultiplier, this`lastDirectionZone, this`lastZoneCommand
      ensures Valid() && speedMultiplier == value as real / 100.0
      ensures SpeedChanged(old(speedMultiplier), speedMultiplier) ==>
              var shown := Displayed(CalculateMotorValues(position, speedMultiplier), stopMode);
              intent == Some(Intent(shown.left, shown.right, speedMultiplier, true)) && Tracking() == old(Tracking())
      ensures !SpeedChanged(old(speedMultiplier), speedMultiplier) ==>
              var s := DifferentialDrive.UpdateMotorValues(old(Tracking()), position, speedMultiplier, stopMode);
              intent == s.intent && Tracking() == s.tracking
    {
      intent := ChangeSpeed(value as real / 100.0, stopMode);
    }

    /** `joystickControl.setSpeedMultiplier`: the value is clamped to [0, 1]. */
    method SetSpeedMultiplier(value: real, stopMode: bool) returns (intent: Option<Intent>)
      requires Valid()
      modifies this`speedMultiplier, this`lastDirectionZone, this`lastZoneCommand
      ensures Valid() && speedMultiplier == Clamp01(value)
      ensures SpeedChanged(old(speedMultiplier), speedMultiplier) ==>
              var shown := Displayed(CalculateMotorValues(position, speedMultiplier), stopMode);
              intent == Some(Intent(shown.left, shown.right, speedMultiplier, true)) && Tracking() == old(Tracking())
      ensures !SpeedChanged(old(speedMultiplier), speedMultiplier) ==>
              var s := DifferentialDrive.UpdateMotorValues(old(Tracking()), position, speedMultiplier, stopMode);
              intent == s.intent && Tracking() == s.tracking
    {
      intent := ChangeSpeed(Clamp01(value), stopMode);
    }

    /** `joystickControl.reset`: recentre, release the gamepad, reset the
        tracking; a stop always goes out. */
    method Reset(stopMode: bool) returns (intent: Option<Intent>)
      requires Valid()
      modifies this`position, this`gamepadActive, this`lastDirectionZone, this`lastZoneCommand
      ensures Valid() && position == CENTRE && !gamepadActive
      ensures intent == Some(Intent(0, 0, speedMultiplier, false))
      ensures Tracking() == DifferentialDrive.UpdateMotorValues(NO_TRACKING, CENTRE, speedMultiplier, stopMode).tracking
    {
      position := CENTRE;
      gamepadActive := false;
      lastDirectionZone := None;
      lastZoneCommand := None;
      RecentreSendsStop(speedMultiplier, stopMode);
      intent := UpdateMotorValues(stopMode);
    }

    /** `joystickControl.forceZoneReset`. */
    method ForceZoneReset()
      modifies this`lastDirectionZone, this`lastZoneCommand
      ensures Tracking() == NO_TRACKING
    {
      lastDirectionZone := None;
      lastZoneCommand := None;
    }

    /** `handleKeyboardInput`: the keys set the knob only while neither the
        mouse nor the gamepad is in control. */
    method KeyboardInput(keys: Keys, stopMode: bool) returns (intent: Option<Intent>)
      requires Valid()
      modifies this`position, this`lastDirectionZone, this`lastZoneCommand
      ensures Valid()
      ensures joystickActive || gamepadActive ==>
              intent == None && position == old(position) && Tracking() == old(Tracking())
      ensures !joystickActive && !gamepadActive ==>
              position == KeyboardOffset(keys)
              && var s := DifferentialDrive.UpdateMotorValues(old(Tracking()), position, speedMultiplier, stopMode);
                 intent == s.intent && Tracking() == s.tracking
    {
      if !joystickActive && !gamepadActive {
        position := KeyboardOffset(keys);
        intent := UpdateMotorValues(stopMode);
      } else {
        intent := None;
      }
    }

    /** The `gamepadconnected` handler (the polling loop it starts is the
        caller's sequence of `GamepadTick` calls). */
    method GamepadConnected(index: nat)
      modifies this`gamepadIndex
      ensures gamepadIndex == index
    {
      gamepadIndex := index;
    }

    /** The `gamepaddisconnected` handler: the gamepad loses control, the
        tracking is reset, and unless the mouse holds the knob it is
        recentred and a stop goes out. */
    method GamepadDisconnected(stopMode: bool) returns (intent: Option<Intent>)
      requires Valid()
      modifies this`gamepadActive, this`gamepadIndex, this`position,
               this`lastDirectionZone, this`lastZoneCommand
      ensures Valid() && !gamepadActive && gamepadIndex == -1
      ensures joystickActive ==> intent == None && position == old(position) && Tracking() == NO_TRACKING
      ensures !joystickActive ==>
              position == CENTRE && intent == Some(Intent(0, 0, speedMultiplier, false))
              && Tracking() == DifferentialDrive.UpdateMotorValues(NO_TRACKING, CENTRE, speedMultiplier, stopMode).tracking
    {
      gamepadActive := false;
      gamepadIndex := -1;
      lastDirectionZone := None;
      lastZoneCommand := None;
      if !joystickActive {
        position := CENTRE;
        RecentreSendsStop(speedMultiplier, stopMode);
        intent := UpdateMotorValues(stopMode);
      } else {
        intent := None;
      }
    }

    /** One throttled pass of `gamepadLoop` (`None`: the pad is gone). A
        stick beyond the dead zone takes control, sets the knob from the
        left stick and nudges the speed with the right stick, clamped to
        [0, 1]; a neutral pad that had control releases it, recentres the
        knob, resets the tracking and sends a stop. */
    method GamepadTick(pad: Option<Sticks>, stopMode: bool) returns (intent: Option<Intent>)
      requires Valid()
      modifies this`gamepadActive, this`position, this`speedMultiplier,
               this`lastDirectionZone, this`lastZoneCommand
      ensures Valid()
      ensures pad.None? ==>
              !gamepadActive && intent == None && position == old(position)
              && speedMultiplier == old(speedMultiplier) && Tracking() == old(Tracking())
      ensures pad.Some? ==>
              var x := GamepadAxis(pad.value.leftX);
              var y := GamepadAxis(pad.value.leftY);
              var v := GamepadAxis(pad.value.rightY);
              if x != 0.0 || y != 0.0 || v != 0.0 then
                gamepadActive
                && position == Position(x * JOYSTICK_RADIUS, y * JOYSTICK_RADIUS)
                && speedMultiplier == (if v != 0.0 then Clamp01(old(speedMultiplier) - v * STICK_SPEED_STEP)
                                       else old(speedMultiplier))
                && var s := DifferentialDrive.UpdateMotorValues(old(Tracking()), position, speedMultiplier, stopMode);
                   intent == s.intent && Tracking() == s.tracking
              else if old(gamepadActive) then
                !gamepadActive && position == CENTRE && speedMultiplier == old(speedMultiplier)
                && intent == Some(Intent(0, 0, speedMultiplier, false))
                && Tracking() == DifferentialDrive.UpdateMotorValues(NO_TRACKING, CENTRE, speedMultiplier, stopMode).tracking
              else
                !gamepadActive && intent == None && position == old(position)
                && speedMultiplier == old(speedMultiplier) && Tracking() == old(Tracking())
    {
      if pad.None? {
        gamepadActive := false;
        return None;
      }
      var processedLeftX := GamepadAxis(pad.value.leftX);
      var processedLeftY := GamepadAxis(pad.value.leftY);
      var processedRightY := GamepadAxis(pad.value.rightY);
      var gamepadInUse := processedLeftX != 0.0 || processedLeftY != 0.0 || processedRightY != 0.0;
      if gamepadInUse {
        gamepadActive := true;
        position := Position(processedLeftX * JOYSTICK_RADIUS, processedLeftY * JOYSTICK_RADIUS);
        if processedRightY != 0.0 {
          speedMultiplier := Clamp01(speedMultiplier + -processedRightY * STICK_SPEED_STEP);
        }
        intent := UpdateMotorValues(stopMode);
      } else if gamepadActive {
        gamepadActive := false;
        position := CENTRE;
        lastDirectionZone := None;
        lastZoneCommand := None;
        RecentreSendsStop(speedMultiplier, stopMode);
        intent := UpdateMotorValues(stopMode);
      } else {
        intent := None;
      }
    }
  }

  /** Scenario: with the knob dragged from the centre straight ahead to the
      edge at half speed, the first move forwards (50, 50), holding still
      forwards nothing more, and releasing the knob forwards a stop. */
  lemma DragForwardScenario()
    ensures var p := ApplyDeadZone(0.0, -JOYSTICK_RADIUS);
            var first := DifferentialDrive.UpdateMotorValues(NO_TRACKING, p, 0.5, false);
            first.intent == Some(Intent(50, 50, 0.5, false))
            && DifferentialDrive.UpdateMotorValues(first.tracking, p, 0.5, false).intent == None
            && DifferentialDrive.UpdateMotorValues(NO_TRACKING, CENTRE, 0.5, false).intent == Some(Intent(0, 0, 0.5, false))
  {
    var p := Position(0.0, -JOYSTICK_RADIUS);
    assert ApplyDeadZone(0.0, -JOYSTICK_RADIUS) == p;
    FullForward(0.5);
    assert Round(100.0 * 0.5) == 50;
    assert CalculateMotorValues(p, 0.5) == Motors(50, 50);
    assert DirectionZone(p) == Forward;
    var t := ZoneTracking(Some(Forward), Some(ZoneRecord(Forward, 50, 50)));
    assert ShouldSendForZone(NO_TRACKING, Forward, Motors(50, 50)) == ZoneDecision(true, t);
    assert ShouldSendForZone(t, Forward, Motors(50, 50)) == ZoneDecision(false, t);
    assert DifferentialDrive.UpdateMotorValues(NO_TRACKING, p, 0.5, false) == DriveStep(Some(Intent(50, 50, 0.5, false)), t);
    assert DifferentialDrive.UpdateMotorValues(t, p, 0.5, false) == DriveStep(None, t);
    RecentreSendsStop(0.5, false);
  }
}
