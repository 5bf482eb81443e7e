/** The module globals of rover-controls.js, the later generation of the
    joystick controller: the same drive arithmetic and zone pre-filter (the
    record also carries the time it was taken), the keyboard gated only by
    the mouse, speed from the analogue triggers instead of the right
    stick, and the A and B buttons toggling the headlamp and stop mode on a
    rising edge. Forwarded motor intents and button toggles are the methods'
    results; the clock reading `Date.now()` and the stop-mode switch's state
    are parameters. */
module RoverControls {
  import opened Common
  import opened DifferentialDrive

  /** `TRIGGER_DEAD_ZONE`. */
  const TRIGGER_DEAD_ZONE: real := 0.05

  /** The change of speed per tick at a full trigger difference. */
  const TRIGGER_SPEED_STEP: real := 0.02

  /** One trigger's value: axis 6 or 7 when the pad reports that many axes,
      clipped below at 0; when that is 0, the value of button 6 or 7 if the
      pad has it; finally the dead zone. An axis resting just above 0 masks
      the button. */
  function TriggerValue(axis: Option<real>, button: Option<real>): (v: real)
    ensures v == 0.0 || v > TRIGGER_DEAD_ZONE
    ensures axis.Some? && axis.value > TRIGGER_DEAD_ZONE ==> v == axis.value
    ensures axis.Some? && 0.0 < axis.value <= TRIGGER_DEAD_ZONE ==> v == 0.0
    ensures (axis.None? || axis.value <= 0.0) ==>
            v == (if button.Some? && button.value > TRIGGER_DEAD_ZONE then button.value else 0.0)
  {
    var raw := if axis.Some? then MaxReal(0.0, axis.value) else 0.0;
    var withButton := if raw == 0.0 && button.Some? then button.value else raw;
    if withButton > TRIGGER_DEAD_ZONE then withButton else 0.0
  }

  /** The trigger speed update: the candidate `clamp(speed + (rt - lt) *
      0.02)` is taken only when it differs from the current speed by more
      than 0.01. */
  function NextSpeed(speed: real, lt: real, rt: real): (s: real)
    ensures 0.0 <= speed <= 1.0 ==> 0.0 <= s <= 1.0
    // the clamped candidate is taken exactly when it moves more than 0.01
    ensures var candidate := Clamp01(speed + (rt - lt) * TRIGGER_SPEED_STEP);
            (SpeedChanged(speed, candidate) ==> s == candidate)
            && (!SpeedChanged(speed, candidate) ==> s == speed)
  {
    var candidate := Clamp01(speed + (rt - lt) * TRIGGER_SPEED_STEP);
    if AbsReal(candidate - speed) > 0.01 then candidate else speed
  }

  /** The triggers have a dead band: when they differ by at most half
      their travel the candidate moves by at most 0.01 and is discarded, so
      a trigger pressed less than half way alone never changes the speed. */
  lemma NextSpeedDeadBand(speed: real, lt: real, rt: real)
    requires 0.0 <= speed <= 1.0
    requires AbsReal(rt - lt) <= 0.5
    ensures NextSpeed(speed, lt, rt) == speed
  {
    var delta := (rt - lt) * TRIGGER_SPEED_STEP;
    assert AbsReal(delta) <= 0.01;
    var candidate := Clamp01(speed + delta);
    assert AbsReal(candidate - speed) <= AbsReal(delta);
  }

  /** A fully pressed right trigger raises the speed by 0.02 per tick until
      the top, where the clamp leaves at most 0.01 to gain, which is
      discarded. */
  lemma FullRightTrigger(speed: real)
    requires 0.0 <= speed <= 1.0
    ensures speed <= 0.98 ==> NextSpeed(speed, 0.0, 1.0) == speed + 0.02
    ensures speed >= 0.99 ==> NextSpeed(speed, 0.0, 1.0) == speed
  {
  }

  /** A button toggles on a press: pressed now and not at the previous poll. */
  function RisingEdge(pressed: bool, last: bool): bool {
    pressed && !last
  }

  /** The number of toggles a sequence of polls of one button produces,
      the previous poll's state being `last`. */
  function EdgeCount(last: bool, polls: seq<bool>): (n: nat)
    // two polls in a row cannot both toggle, so at most every other poll
    // does, and the first only when the button was up before it
    ensures n <= (|polls| + (if last then 0 else 1)) / 2
    decreases |polls|
  {
    if |polls| == 0 then 0
    else (if RisingEdge(polls[0], last) then 1 else 0) + EdgeCount(polls[0], polls[1..])
  }

  /** Holding a button for any number of polls toggles once. */
  lemma {:induction false} HoldingTogglesOnce(n: nat)
    requires n >= 1
    ensures EdgeCount(false, seq(n, _ => true)) == 1
  {
    var held := seq(n, _ => true);
    assert held[1..] == seq(n - 1, _ => true);
    HeldStaysToggled(n - 1);
  }

  /** While a button stays down after a poll that saw it down, nothing
      toggles. */
  lemma {:induction false} HeldStaysToggled(n: nat)
    ensures EdgeCount(true, seq(n, _ => true)) == 0
  {
    if n > 0 {
      var held := seq(n, _ => true);
      assert held[1..] == seq(n - 1, _ => true);
      HeldStaysToggled(n - 1);
    }
  }

  /** `k` press-and-release cycles, one poll each way. */
  function PressCycles(k: nat): (polls: seq<bool>)
    ensures |polls| == 2 * k
  {
    if k == 0 then [] else [true, false] + PressCycles(k - 1)
  }

  /** Every press, however short, is seen once: `k` press-and-release
      cycles toggle exactly `k` times. */
  lemma {:induction false} EachPressTogglesOnce(k: nat)
    ensures EdgeCount(false, PressCycles(k)) == k
  {
    if k > 0 {
      var polls := PressCycles(k);
      assert polls[0] == true && polls[1..][0] == false;
      assert polls[1..][1..] == PressCycles(k - 1);
      EachPressTogglesOnce(k - 1);
    }
  }

  /** What one poll of the gamepad reports: the left stick, axes 6 and 7
      when present, the values of buttons 6 and 7 when present, and whether
      buttons 0 (A) and 1 (B) are pressed. */
  datatype Pad = Pad(leftX: real, leftY: real, axis6: Option<real>, axis7: Option<real>,
                     button6: Option<real>, button7: Option<real>, buttonA: bool, buttonB: bool)

  /** One poll's effects: the switch clicks and the forwarded intent. */
  datatype TickEffect = TickEffect(toggleHeadlamp: bool, toggleStopMode: bool, intent: Option<Intent>)

  /** `lastZoneTimestamp` after the pre-filter ran from tracking `t` at the
      knob position `p`: the time of the call when it fired, else `stamp`. */
  function StampAfter(t: ZoneTracking, p: Position, speed: real, now: int, stamp: Option<int>): Option<int>
  {
    if ShouldSendForZone(t, DirectionZone(p), CalculateMotorValues(p, speed)).fire then Some(now) else stamp
  }

  class Controller {
    var joystickActive: bool
    var isDragging: bool
    var position: Position
    var speedMultiplier: real
    var gamepadActive: bool
    var gamepadIndex: int
    var lastButtonA: bool
    var lastButtonB: bool
    var lastDirectionZone: Option<Zone>
    var lastZoneCommand: Option<ZoneRecord>
    /** The `timestamp` of `lastZoneCommand`. */
    var lastZoneTimestamp: Option<int>

    function Tracking(): ZoneTracking
      reads this`lastDirectionZone, this`lastZoneCommand
    {
      ZoneTracking(lastDirectionZone, lastZoneCommand)
    }

    /** The speed multiplier is a fraction, the two zone fields agree, and
        a record has a timestamp. */
    ghost predicate Valid()
      reads this`speedMultiplier, this`lastDirectionZone, this`lastZoneCommand, this`lastZoneTimestamp
    {
      0.0 <= speedMultiplier <= 1.0 && TrackingValid(Tracking())
      && (lastZoneCommand.Some? <==> lastZoneTimestamp.Some?)
    }

    /** The globals' values when the script loads. */
    constructor ()
      ensures Valid()
      ensures !joystickActive && !isDragging && position == CENTRE && speedMultiplier == 0.5
      ensures !gamepadActive && gamepadIndex == -1 && !lastButtonA && !lastButtonB
      ensures Tracking() == NO_TRACKING
    {
      joystickActive := false;
      isDragging := false;
      position := CENTRE;
      speedMultiplier := 0.5;
      gamepadActive := false;
      gamepadIndex := -1;
      lastButtonA := false;
      lastButtonB := false;
      lastDirectionZone := None;
      lastZoneCommand := None;
      lastZoneTimestamp := None;
    }

    /** `shouldSendCommandForZone`; `now` is `Date.now()`. */
    method ShouldSendCommandForZone(now: int) returns (fire: bool)
      requires Valid()
      modifies this`lastDirectionZone, this`lastZoneCommand, this`lastZoneTimestamp
      ensures Valid()
      ensures var d := ShouldSendForZone(old(Tracking()), DirectionZone(position),
                                         CalculateMotorValues(position, speedMultiplier));
              fire == d.fire && Tracking() == d.tracking
              && lastZoneTimestamp == (if fire then Some(now) else old(lastZoneTimestamp))
    {
      var currentZone := DirectionZone(position);
      var motorValues := CalculateMotorValues(position, speedMultiplier);
      if Some(currentZone) != lastDirectionZone {
        lastDirectionZone := Some(currentZone);
        lastZoneCommand := Some(ZoneRecord(currentZone, motorValues.left, motorValues.right));
        lastZoneTimestamp := Some(now);
        return true;
      }
      if lastZoneCommand.Some? {
        var leftDiff := Abs(motorValues.left - lastZoneCommand.value.left);
        var rightDiff := Abs(motorValues.right - lastZoneCommand.value.right);
        if leftDiff >= ZONE_DRIFT || rightDiff >= ZONE_DRIFT {
          lastZoneCommand := Some(ZoneRecord(currentZone, motorValues.left, motorValues.right));
          lastZoneTimestamp := Some(now);
          return true;
        }
      }
      return false;
    }

    /** `updateMotorValues`: joystick intents are sent unforced. */
    method UpdateMotorValues(stopMode: bool, now: int) returns (intent: Option<Intent>)
      requires Valid()
      modifies this`lastDirectionZone, this`lastZoneCommand, this`lastZoneTimestamp
      ensures Valid()
      ensures var s := DifferentialDrive.UpdateMotorValues(old(Tracking()), position, speedMultiplier, stopMode);
              intent == s.intent && Tracking() == s.tracking
      ensures lastZoneTimestamp == StampAfter(old(Tracking()), position, speedMultiplier, now, old(lastZoneTimestamp))
    {
      var motorValues := CalculateMotorValues(position, speedMultiplier);
      var leftMotor := if stopMode then 0 else motorValues.left;
      var rightMotor := if stopMode then 0 else motorValues.right;
      var fire := ShouldSendCommandForZone(now);
      if fire || StopModeMismatch(stopMode, lastZoneCommand) {
        intent := Some(Intent(leftMotor, rightMotor, speedMultiplier, false));
      } else {
        intent := None;
      }
    }

    /** `startDrag` and `startDragTouch`. */
    method StartDrag()
      modifies this`isDragging, this`joystickActive
      ensures isDragging && joystickActive
    {
      isDragging := true;
      joystickActive := true;
    }

    /** `handleDrag` and `handleDragTouch` with `updateJoystickPosition`;
        the offset is within the knob's travel. */
    method HandleDrag(dx: real, dy: real, stopMode: bool, now: int) returns (intent: Option<Intent>)
      requires Valid()
      requires dx * dx + dy * dy <= JOYSTICK_RADIUS * JOYSTICK_RADIUS
      modifies this`position, this`lastDirectionZone, this`lastZoneCommand, this`lastZoneTimestamp
      ensures Valid()
      ensures !isDragging ==>
              intent == None && position == old(position) && Tracking() == old(Tracking())
              && lastZoneTimestamp == old(lastZoneTimestamp)
      ensures isDragging ==> position == ApplyDeadZone(dx, dy)
      ensures isDragging ==>
              var s := DifferentialDrive.UpdateMotorValues(old(Tracking()), position, speedMultiplier, stopMode);
              intent == s.intent && Tracking() == s.tracking
              && lastZoneTimestamp == StampAfter(old(Tracking()), position, speedMultiplier, now, old(lastZoneTimestamp))
    {
      if !isDragging {
        return None;
      }
      position := ApplyDeadZone(dx, dy);
      intent := UpdateMotorValues(stopMode, now);
    }

    /** `stopDrag`: releasing the knob recentres it, resets the zone
        tracking and so always sends a stop. */
    method StopDrag(stopMode: bool, now: int) returns (intent: Option<Intent>)
      requires Valid()
      modifies this`isDragging, this`joystickActive, this`position,
               this`lastDirectionZone, this`lastZoneCommand, this`lastZoneTimestamp
      ensures Valid()
      ensures !old(isDragging) ==>
              intent == None && !isDragging && joystickActive == old(joystickActive)
              && position == old(position) && Tracking() == old(Tracking())
              && lastZoneTimestamp == old(lastZoneTimestamp)
      // the reset tracking makes the filter fire on the centre, recording it now
      ensures old(isDragging) ==>
              !isDragging && !joystickActive && position == CENTRE
              && intent == Some(Intent(0, 0, speedMultiplier, false))
              && Tracking() == DifferentialDrive.UpdateMotorValues(NO_TRACKING, CENTRE, speedMultiplier, stopMode).tracking
              && lastZoneTimestamp == Some(now)
    {
      if !isDragging {
        return None;
      }
      isDragging := false;
      joystickActive := false;
      position := CENTRE;
      lastDirectionZone := None;
      lastZoneCommand := None;
      lastZoneTimestamp := None;
      RecentreSendsStop(speedMultiplier, stopMode);
      ResetTrackingFires(DirectionZone(CENTRE), CalculateMotorValues(CENTRE, speedMultiplier));
      intent := UpdateMotorValues(stopMode, now);
    }

    /** The speed slider's `input` handler: in this file it never forces a
        send, the pre-filter decides. The slider's range is 0..100. */
    method SpeedSliderInput(value: int, stopMode: bool, now: int) returns (intent: Option<Intent>)
      requires Valid() && 0 <= value <= 100
      modifies this`speedMultiplier, this`lastDirectionZone, this`lastZoneCommand, this`lastZoneTimestamp
      ensures Valid() && speedMultiplier == value as real / 100.0
      ensures var s := DifferentialDrive.UpdateMotorValues(old(Tracking()), position, speedMultiplier, stopMode);
              intent == s.intent && Tracking() == s.tracking
      ensures lastZoneTimestamp == StampAfter(old(Tracking()), position, speedMultiplier, now, old(lastZoneTimestamp))
    {
      speedMultiplier := value as real / 100.0;
      intent := UpdateMotorValues(stopMode, now);
    }

    /** `joystickControl.setSpeedMultiplier`: clamp to [0, 1]; a change of
        more than 0.01 forces an immediate send of the current wheels
        without consulting the pre-filter. */
    method SetSpeedMultiplier(value: real, stopMode: bool, now: int) returns (intent: Option<Intent>)
      requires Valid()
      modifies this`speedMultiplier, this`lastDirectionZone, this`lastZoneCommand, this`lastZoneTimestamp
      ensures Valid() && speedMultiplier == Clamp01(value)
      ensures SpeedChanged(old(speedMultiplier), speedMultiplier) ==>
              var shown := Displayed(CalculateMotorValues(position, speedMultiplier), stopMode);
              intent == Some(Intent(shown.left, shown.right, speedMultiplier, true)) && Tracking() == old(Tracking())
              && lastZoneTimestamp == old(lastZoneTimestamp)
      ensures !SpeedChanged(old(speedMultiplier), speedMultiplier) ==>
              var s := DifferentialDrive.UpdateMotorValues(old(Tracking()), position, speedMultiplier, stopMode);
              intent == s.intent && Tracking() == s.tracking
              && lastZoneTimestamp == StampAfter(old(Tracking()), position, speedMultiplier, now, old(lastZoneTimestamp))
    {
      var newSpeedMultiplier := Clamp01(value);
      var speedChanged := AbsReal(newSpeedMultiplier - speedMultiplier) > 0.01;
      speedMultiplier := newSpeedMultiplier;
      if speedChanged {
        var motorValues := CalculateMotorValues(position, speedMultiplier);
        var leftMotor := if stopMode then 0 else motorValues.left;
        var rightMotor := if stopMode then 0 else motorValues.right;
        intent := Some(Intent(leftMotor, rightMotor, speedMultiplier, true));
      } else {
        intent := UpdateMotorValues(stopMode, now);
      }
    }

    /** `joystickControl.reset`: recentre, release the gamepad, reset the
        tracking; a stop always goes out. */
    method Reset(stopMode: bool, now: int) returns (intent: Option<Intent>)
      requires Valid()
      modifies this`position, this`gamepadActive, this`lastDirectionZone, this`lastZoneCommand,
               this`lastZoneTimestamp
      ensures Valid() && position == CENTRE && !gamepadActive
      ensures intent == Some(Intent(0, 0, speedMultiplier, false))
      // the reset tracking makes the filter fire on the centre, recording it now
      ensures Tracking() == DifferentialDrive.UpdateMotorValues(NO_TRACKING, CENTRE, speedMultiplier, stopMode).tracking
      ensures lastZoneTimestamp == Some(now)
    {
      position := CENTRE;
      gamepadActive := false;
      lastDirectionZone := None;
      lastZoneCommand := None;
      lastZoneTimestamp := None;
      RecentreSendsStop(speedMultiplier, stopMode);
      ResetTrackingFires(DirectionZone(CENTRE), CalculateMotorValues(CENTRE, speedMultiplier));
      intent := UpdateMotorValues(stopMode, now);
    }

    /** `joystickControl.forceZoneReset`. */
    method ForceZoneReset()
      requires Valid()
      modifies this`lastDirectionZone, this`lastZoneCommand, this`lastZoneTimestamp
      ensures Valid() && Tracking() == NO_TRACKING && lastZoneTimestamp == None
    {
      lastDirectionZone := None;
      lastZoneCommand := None;
      lastZoneTimestamp := None;
    }

    /** `handleKeyboardInput`: in this file only the mouse blocks the
        keys; a gamepad in control does not. */
    method KeyboardInput(keys: Keys, stopMode: bool, now: int) returns (intent: Option<Intent>)
      requires Valid()
      modifies this`position, this`lastDirectionZone, this`lastZoneCommand, this`lastZoneTimestamp
      ensures Valid()
      ensures joystickActive ==>
              intent == None && position == old(position) && Tracking() == old(Tracking())
              && lastZoneTimestamp == old(lastZoneTimestamp)
      ensures !joystickActive ==>
              position == KeyboardOffset(keys)
              && var s := DifferentialDrive.UpdateMotorValues(old(Tracking()), position, speedMultiplier, stopMode);
                 intent == s.intent && Tracking() == s.tracking
                 && lastZoneTimestamp == StampAfter(old(Tracking()), position, speedMultiplier, now, old(lastZoneTimestamp))
    {
      if !joystickActive {
        position := KeyboardOffset(keys);
        intent := UpdateMotorValues(stopMode, now);
      } else {
        intent := None;
      }
    }

    /** The `gamepadconnected` handler (the polling loop it starts is the
        caller's sequence of `GamepadTick` calls). */
    method GamepadConnected(index: nat)
      modifies this`gamepadIndex
      ensures gamepadIndex == index
    {
      gamepadIndex := index;
    }

    /** The `gamepaddisconnected` handler: only the pad in use is released;
        the knob and the tracking are left as they are. */
    method GamepadDisconnected(index: int)
      modifies this`gamepadIndex, this`gamepadActive
      ensures index == old(gamepadIndex) ==> gamepadIndex == -1 && !gamepadActive
      ensures index != old(gamepadIndex) ==> gamepadIndex == old(gamepadIndex) && gamepadActive == old(gamepadActive)
    {
      if index == gamepadIndex {
        gamepadIndex := -1;
        gamepadActive := false;
      }
    }

    /** `handleGamepadButtons`: A clicks the headlamp switch and B the
        stop-mode switch on a rising edge; the previous state is
        overwritten at every poll. */
    method HandleGamepadButtons(a: bool, b: bool) returns (toggleHeadlamp: bool, toggleStopMode: bool)
      modifies this`lastButtonA, this`lastButtonB
      ensures toggleHeadlamp == RisingEdge(a, old(lastButtonA)) && lastButtonA == a
      ensures toggleStopMode == RisingEdge(b, old(lastButtonB)) && lastButtonB == b
    {
      toggleHeadlamp := a && !lastButtonA;
      lastButtonA := a;
      toggleStopMode := b && !lastButtonB;
      lastButtonB := b;
    }

    /** One throttled pass of `gamepadLoop` (`None`: the pad is gone, which
        forgets its index). The buttons are handled first; a stick or
        trigger beyond its dead zone takes control, sets the knob from the
        left stick and moves the speed by the trigger difference; a neutral
        pad that had control releases it and recentres the knob without
        resetting the tracking. The stop-mode flag is the switch's state
        when `updateMotorValues` reads it. */
    method GamepadTick(pad: Option<Pad>, stopMode: bool, now: int) returns (effect: TickEffect)
      requires Valid()
      modifies this`gamepadIndex, this`gamepadActive, this`position, this`speedMultiplier,
               this`lastButtonA, this`lastButtonB,
               this`lastDirectionZone, this`lastZoneCommand, this`lastZoneTimestamp
      ensures Valid()
      ensures pad.None? ==>
              gamepadIndex == -1 && effect == TickEffect(false, false, None)
              && position == old(position) && speedMultiplier == old(speedMultiplier)
              && gamepadActive == old(gamepadActive) && Tracking() == old(Tracking())
              && lastZoneTimestamp == old(lastZoneTimestamp)
      ensures pad.Some? ==>
              gamepadIndex == old(gamepadIndex)
              && effect.toggleHeadlamp == RisingEdge(pad.value.buttonA, old(lastButtonA))
              && effect.toggleStopMode == RisingEdge(pad.value.buttonB, old(lastButtonB))
              && lastButtonA == pad.value.buttonA && lastButtonB == pad.value.buttonB
      ensures pad.Some? ==>
              var x := GamepadAxis(pad.value.leftX);
              var y := GamepadAxis(pad.value.leftY);
              var lt := TriggerValue(pad.value.axis6, pad.value.button6);
              var rt := TriggerValue(pad.value.axis7, pad.value.button7);
              if x != 0.0 || y != 0.0 || lt > 0.0 || rt > 0.0 then
                gamepadActive
                && position == Position(x * JOYSTICK_RADIUS, y * JOYSTICK_RADIUS)
                && speedMultiplier == (if lt > 0.0 || rt > 0.0 then NextSpeed(old(speedMultiplier), lt, rt)
                                       else old(speedMultiplier))
                && var s := DifferentialDrive.UpdateMotorValues(old(Tracking()), position, speedMultiplier, stopMode);
                   effect.intent == s.intent && Tracking() == s.tracking
                   && lastZoneTimestamp == StampAfter(old(Tracking()), position, speedMultiplier, now, old(lastZoneTimestamp))
              else if old(gamepadActive) then
                !gamepadActive && position == CENTRE && speedMultiplier == old(speedMultiplier)
                && var s := DifferentialDrive.UpdateMotorValues(old(Tracking()), CENTRE, speedMultiplier, stopMode);
                   effect.intent == s.intent && Tracking() == s.tracking
                   && lastZoneTimestamp == StampAfter(old(Tracking()), CENTRE, speedMultiplier, now, old(lastZoneTimestamp))
                   && (!stopMode ==> effect.intent == Some(Intent(0, 0, speedMultiplier, false)))
              else
                !gamepadActive && effect.intent == None && position == old(position)
                && speedMultiplier == old(speedMultiplier) && Tracking() == old(Tracking())
                && lastZoneTimestamp == old(lastZoneTimestamp)
    {
      if pad.None? {
        gamepadIndex := -1;
        return TickEffect(false, false, None);
      }
      var leftTrigger := TriggerValue(pad.value.axis6, pad.value.button6);
      var rightTrigger := TriggerValue(pad.value.axis7, pad.value.button7);
      var processedLeftX := GamepadAxis(pad.value.leftX);
      var processedLeftY := GamepadAxis(pad.value.leftY);
      var toggleHeadlamp, toggleStopMode := HandleGamepadButtons(pad.value.buttonA, pad.value.buttonB);
      var gamepadInUse := processedLeftX != 0.0 || processedLeftY != 0.0
                          || leftTrigger > 0.0 || rightTrigger > 0.0;
      var intent := None;
      if gamepadInUse {
        if leftTrigger > 0.0 || rightTrigger > 0.0 {
          speedMultiplier := NextSpeed(speedMultiplier, leftTrigger, rightTrigger);
        }
        position := Position(processedLeftX * JOYSTICK_RADIUS, processedLeftY * JOYSTICK_RADIUS);
        gamepadActive := true;
        intent := UpdateMotorValues(stopMode, now);
      } else if gamepadActive {
        position := CENTRE;
        gamepadActive := false;
        CentreWithoutResetStops(Tracking(), speedMultiplier);
        intent := UpdateMotorValues(stopMode, now);
      }
      effect := TickEffect(toggleHeadlamp, toggleStopMode, intent);
    }
  }
}
